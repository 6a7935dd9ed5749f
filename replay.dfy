/**
 * The worker-side replay recorder: a buffer of downscaled screenshots taken
 * during the agent loop, and the upload that asks the backend for presigned
 * URLs, PUTs every frame and then a JSON manifest describing them.
 *
 * Image decoding and JPEG encoding are external: a capture either yields the
 * encoded bytes or fails.  The HTTP exchanges are parameters (the replies the
 * backend and the bucket give) and the requests sent are returned as a log.
 */
module Replay {
  import opened Wrappers
  import opened Strings
  import R2

  /** One buffered screenshot: JPEG bytes, capture time (ISO 8601) and the action that led to it. */
  datatype Capture = Capture(jpegBytes: seq<bv8>, timestamp: string, action: string)

  /** One entry of the manifest's `frames` list. */
  datatype ManifestFrame = ManifestFrame(index: nat, timestamp: string, url: string, action: string)

  /** The manifest object written next to the frames. */
  datatype Manifest = Manifest(sessionId: string, agentId: string, frameCount: nat, frames: seq<ManifestFrame>)

  /** The folder the worker writes its URLs for (`f"replays/{session_id}/{agent_id}"`). */
  function UploadPrefix(sessionId: string, agentId: string): string {
    "replays/" + sessionId + "/" + agentId
  }

  /** The public URL of frame `i` as the worker writes it: the index zero-filled to four digits. */
  function FrameUrl(publicUrlPrefix: string, sessionId: string, agentId: string, i: nat): string {
    publicUrlPrefix + "/" + UploadPrefix(sessionId, agentId) + "/frame-" + ZFill(NatToString(i), 4) + ".jpg"
  }

  /** The public URL of the manifest, which `upload` returns on success. */
  function ManifestPublicUrl(publicUrlPrefix: string, sessionId: string, agentId: string): string {
    publicUrlPrefix + "/" + UploadPrefix(sessionId, agentId) + "/manifest.json"
  }

  /** The manifest for the buffered captures: frame `i` describes the `i`-th capture. */
  function BuildManifest(sessionId: string, agentId: string, publicUrlPrefix: string, captures: seq<Capture>): (m: Manifest)
    ensures m.sessionId == sessionId && m.agentId == agentId
    ensures m.frameCount == |m.frames| == |captures|
    ensures forall i :: 0 <= i < |captures| ==>
      && m.frames[i].index == i
      && m.frames[i].timestamp == captures[i].timestamp
      && m.frames[i].action == captures[i].action
      && m.frames[i].url == FrameUrl(publicUrlPrefix, sessionId, agentId, i)
  {
    Manifest(sessionId, agentId, |captures|,
      seq(|captures|, i requires 0 <= i < |captures| =>
        ManifestFrame(i, captures[i].timestamp, FrameUrl(publicUrlPrefix, sessionId, agentId, i), captures[i].action)))
  }

  /**
   * The URL the worker records for a frame is the public URL of the key the
   * backend signs for it: `zfill(4)` and `padStart(4, "0")` agree on the
   * decimal form of a natural number.
   */
  lemma WorkerUrlsMatchSignedKeys(publicUrlPrefix: string, sessionId: string, agentId: string, i: nat)
    ensures FrameUrl(publicUrlPrefix, sessionId, agentId, i)
         == R2.PublicUrl(publicUrlPrefix, R2.FrameKey(sessionId, agentId, i))
  {
    var shown := NatToString(i);
    ZFillIsPadStart(shown, 4);
    assert ZFill(shown, 4) == R2.FrameNumber(i);
  }

  /** Likewise the manifest's public URL is the public URL of the manifest key. */
  lemma ManifestUrlMatchesSignedKey(publicUrlPrefix: string, sessionId: string, agentId: string)
    ensures ManifestPublicUrl(publicUrlPrefix, sessionId, agentId)
         == R2.PublicUrl(publicUrlPrefix, R2.ManifestKey(sessionId, agentId))
  {
  }

  /** The reply to the upload-URL request; `body` is `None` when it is not the expected JSON. */
  datatype UrlReply = UrlReply(status: int, body: Option<R2.UploadUrls>)

  /** A 200 reply carrying signed URLs for at least `frameCount` frames. */
  predicate UrlsUsable(reply: Option<UrlReply>, frameCount: nat) {
    reply.Some? && reply.value.status == 200 && reply.value.body.Some?
    && |reply.value.body.value.frameUrls| >= frameCount
  }

  /** The HTTP requests `upload` sends, in order. */
  datatype Request =
    | RequestUrls(url: string, sessionId: string, agentId: string, frameCount: nat)
    | PutFrame(url: string, jpegBytes: seq<bv8>)
    | PutManifest(url: string, manifest: Manifest)

  /** The PUTs of the first `n` captures, capture `i` to the `i`-th signed URL. */
  function FramePuts(captures: seq<Capture>, frameUrls: seq<string>, n: nat): (r: seq<Request>)
    requires n <= |captures| && n <= |frameUrls|
    ensures |r| == n
    ensures forall i :: 0 <= i < n ==> r[i] == PutFrame(frameUrls[i], captures[i].jpegBytes)
  {
    if n == 0 then [] else FramePuts(captures, frameUrls, n - 1) + [PutFrame(frameUrls[n - 1], captures[n - 1].jpegBytes)]
  }

  class ReplayBuffer {
    var frames: seq<Capture>

    constructor()
      ensures frames == []
    {
      frames := [];
    }

    function FrameCount(): nat
      reads this
    {
      |frames|
    }

    /**
     * Buffers one screenshot.  `encoded` is the downscaled JPEG, or `None`
     * when decoding or resizing failed, in which case nothing is buffered.
     */
    method CaptureFrame(encoded: Option<seq<bv8>>, timestamp: string, actionLabel: string)
      modifies this
      ensures encoded.Some? ==> frames == old(frames) + [Capture(encoded.value, timestamp, actionLabel)]
      ensures encoded.None? ==> frames == old(frames)
      ensures FrameCount() == old(FrameCount()) + (if encoded.Some? then 1 else 0)
    {
      if encoded.Some? {
        frames := frames + [Capture(encoded.value, timestamp, actionLabel)];
      }
    }

    /**
     * Uploads the buffer.  `reply` is the backend's answer to the URL request
     * (`None` when the request raised) and `manifestStatus` the status of the
     * manifest PUT (`None` when it raised).  The frame PUTs' outcomes are only
     * logged, so they are not inputs.  Returns the manifest's public URL and
     * the frame count, or `None`.
     */
    method Upload(sessionId: string, agentId: string, apiBaseUrl: string, publicUrlPrefix: string,
                  reply: Option<UrlReply>, manifestStatus: Option<int>)
      returns (result: Option<(string, nat)>, requests: seq<Request>)
      ensures frames == [] ==> result.None? && requests == []
      ensures frames != [] ==> |requests| >= 1 && requests[0] == RequestUrls(apiBaseUrl + "/api/replay/upload-urls", sessionId, agentId, |frames|)
      ensures result.Some? <==>
        frames != [] && UrlsUsable(reply, |frames|) && manifestStatus.Some? && manifestStatus.value < 400
      ensures result.Some? ==> result.value == (ManifestPublicUrl(publicUrlPrefix, sessionId, agentId), |frames|)
      ensures frames != [] && UrlsUsable(reply, |frames|) ==>
        requests == [RequestUrls(apiBaseUrl + "/api/replay/upload-urls", sessionId, agentId, |frames|)]
          + FramePuts(frames, reply.value.body.value.frameUrls, |frames|)
          + [PutManifest(reply.value.body.value.manifestUrl, BuildManifest(sessionId, agentId, publicUrlPrefix, frames))]
      ensures !UrlsUsable(reply, |frames|) ==> |requests| <= 1
    {
      if frames == [] {
        return None, [];
      }
      var frameCount := |frames|;
      requests := [RequestUrls(apiBaseUrl + "/api/replay/upload-urls", sessionId, agentId, frameCount)];
      if reply.None? || reply.value.status != 200 || reply.value.body.None? {
        return None, requests;
      }
      var urls := reply.value.body.value;
      if |urls.frameUrls| < frameCount {
        // indexing past the signed URLs raises before any PUT is started
        return None, requests;
      }
      var i := 0;
      while i < frameCount
        invariant 0 <= i <= frameCount
        invariant requests == [RequestUrls(apiBaseUrl + "/api/replay/upload-urls", sessionId, agentId, frameCount)]
                              + FramePuts(frames, urls.frameUrls, i)
      {
        requests := requests + [PutFrame(urls.frameUrls[i], frames[i].jpegBytes)];
        i := i + 1;
      }
      var manifest := BuildManifest(sessionId, agentId, publicUrlPrefix, frames);
      requests := requests + [PutManifest(urls.manifestUrl, manifest)];
      if manifestStatus.None? || manifestStatus.value >= 400 {
        return None, requests;
      }
      return Some((ManifestPublicUrl(publicUrlPrefix, sessionId, agentId), frameCount)), requests;
    }
  }

  /**
   * End to end: when the backend signs the keys of `R2.GenerateUploadUrls`,
   * frame `i` is PUT to the signed URL of frame key `i`, and the manifest
   * lists, for frame `i`, the public URL of that very key.
   */
  lemma UploadedKeysAreListedKeys(sessionId: string, agentId: string, publicUrlPrefix: string,
                                  captures: seq<Capture>, sign: string -> string, i: nat)
    requires i < |captures|
    ensures var urls := R2.GenerateUploadUrls(sessionId, agentId, |captures|, sign);
      && FramePuts(captures, urls.frameUrls, |captures|)[i].url == sign(R2.FrameKey(sessionId, agentId, i))
      && BuildManifest(sessionId, agentId, publicUrlPrefix, captures).frames[i].url
         == R2.PublicUrl(publicUrlPrefix, R2.FrameKey(sessionId, agentId, i))
  {
    WorkerUrlsMatchSignedKeys(publicUrlPrefix, sessionId, agentId, i);
  }
}

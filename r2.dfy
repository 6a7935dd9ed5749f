/**
 * Object-key layout of replay uploads in the R2 bucket: one JPEG per frame
 * under `replays/<session>/<agent>/frame-NNNN.jpg` and one
 * `manifest.json` beside them.  Presigning is external; it is a parameter.
 */
module R2 {
  import opened Strings

  /** The folder of one agent's replay. */
  function KeyPrefix(sessionId: string, agentId: string): string {
    "replays/" + sessionId + "/" + agentId
  }

  /** Frame numbers are zero-padded to four digits (`String(i).padStart(4, "0")`). */
  function FrameNumber(i: nat): (r: string)
    ensures |r| >= 4 && AllDigits(r)
  {
    PadStart(NatToString(i), 4, '0')
  }

  function FrameKey(sessionId: string, agentId: string, i: nat): string {
    KeyPrefix(sessionId, agentId) + "/frame-" + FrameNumber(i) + ".jpg"
  }

  function ManifestKey(sessionId: string, agentId: string): string {
    KeyPrefix(sessionId, agentId) + "/manifest.json"
  }

  /** What `generateUploadUrls` returns. */
  datatype UploadUrls = UploadUrls(frameUrls: seq<string>, manifestUrl: string)

  /**
   * One signed PUT URL per frame, in frame order, and one for the manifest;
   * `sign` stands for `getSignedUrl` on a PUT of the given key.
   */
  function GenerateUploadUrls(sessionId: string, agentId: string, frameCount: nat, sign: string -> string): (r: UploadUrls)
    ensures |r.frameUrls| == frameCount
    ensures forall i :: 0 <= i < frameCount ==> r.frameUrls[i] == sign(FrameKey(sessionId, agentId, i))
    ensures r.manifestUrl == sign(ManifestKey(sessionId, agentId))
  {
    UploadUrls(seq(frameCount, i requires 0 <= i => sign(FrameKey(sessionId, agentId, i))),
               sign(ManifestKey(sessionId, agentId)))
  }

  /** The public read URL of a key. */
  function PublicUrl(publicBase: string, key: string): (r: string)
    ensures StartsWith(r, publicBase + "/") && EndsWith(r, key)
  {
    publicBase + "/" + key
  }

  /** Distinct frames get distinct keys: padding never cuts digits off. */
  lemma FrameKeysDistinct(sessionId: string, agentId: string, i: nat, j: nat)
    requires FrameKey(sessionId, agentId, i) == FrameKey(sessionId, agentId, j)
    ensures i == j
  {
    var head := KeyPrefix(sessionId, agentId) + "/frame-";
    var ki, kj := FrameKey(sessionId, agentId, i), FrameKey(sessionId, agentId, j);
    assert ki == head + FrameNumber(i) + ".jpg";
    assert kj == head + FrameNumber(j) + ".jpg";
    assert |FrameNumber(i)| == |FrameNumber(j)|;
    assert FrameNumber(i) == ki[|head|..|ki| - 4];
    assert FrameNumber(j) == kj[|head|..|kj| - 4];
    PaddedShowInjective(i, j, 4);
  }

  /** The manifest key is never a frame key. */
  lemma ManifestKeyNotFrameKey(sessionId: string, agentId: string, i: nat)
    ensures ManifestKey(sessionId, agentId) != FrameKey(sessionId, agentId, i)
  {
    var m, f := ManifestKey(sessionId, agentId), FrameKey(sessionId, agentId, i);
    assert m[|m| - 1] == 'n';
    assert f[|f| - 1] == 'g';
  }
}

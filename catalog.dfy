/**
 * The catalog of finished recordings: an ordered list of descriptors, appended to
 * when a recording completes and enriched in place when the browser reports the
 * clip's pixel dimensions.
 */
module Catalog {
  import opened Wrappers
  import opened Decimal
  import opened Tables
  import opened Parameters

  /**
   * One recorded clip. `size` is the human-readable size label, `mimeType` the blob's
   * type, `url` the playable blob reference; the last three fields arrive later, if ever.
   */
  datatype RecordedVideo = RecordedVideo(
    url: string,
    name: string,
    resolution: Option<Resolution>,
    bitRate: Option<BitRate>,
    frameRate: Option<FrameRate>,
    size: string,
    mimeType: string,
    videoHeight: Option<nat>,
    videoWidth: Option<nat>,
    duration: Option<real>)

  const NAME_PREFIX: string := "VideoRecord-"

  /** `VideoRecord-<n><EXTENSION>`. */
  function RecordName(n: nat): string {
    NAME_PREFIX + NatToString(n) + EXTENSION
  }

  /** The n-th clip's name is `VideoRecord-n` (counting from 1), and no clip ever has a duration. */
  ghost predicate WellFormed(c: seq<RecordedVideo>) {
    forall i :: 0 <= i < |c| ==> c[i].name == RecordName(i + 1) && c[i].duration.None?
  }

  /** The descriptor built on completion, from the current selection and the finished blob. */
  function NewRecord(count: nat, s: Selection, size: string, mimeType: string, url: string): RecordedVideo {
    RecordedVideo(url, RecordName(count + 1), s.resolution, s.bitRate, s.frameRate, size, mimeType, None, None, None)
  }

  /** Completion appends exactly one descriptor at the end, carrying the selection, and keeps the catalog well formed. */
  function Append(c: seq<RecordedVideo>, s: Selection, size: string, mimeType: string, url: string): (r: seq<RecordedVideo>)
    ensures |r| == |c| + 1 && r[..|c|] == c
    ensures r[|c|].name == RecordName(|c| + 1)
    ensures r[|c|].resolution == s.resolution && r[|c|].bitRate == s.bitRate && r[|c|].frameRate == s.frameRate
    ensures r[|c|].size == size && r[|c|].mimeType == mimeType && r[|c|].url == url
    ensures r[|c|].videoWidth.None? && r[|c|].videoHeight.None? && r[|c|].duration.None?
    ensures WellFormed(c) ==> WellFormed(r)
  {
    c + [NewRecord(|c|, s, size, mimeType, url)]
  }

  /**
   * Metadata for the clip at `index`: that entry gains its pixel dimensions and keeps
   * every other field; the other entries and the length do not change.
   */
  function AttachDimensions(c: seq<RecordedVideo>, index: nat, videoWidth: nat, videoHeight: nat): (r: seq<RecordedVideo>)
    requires index < |c|
    ensures |r| == |c|
    ensures forall j :: 0 <= j < |c| && j != index ==> r[j] == c[j]
    ensures r[index].videoWidth == Some(videoWidth) && r[index].videoHeight == Some(videoHeight)
    ensures r[index].(videoWidth := c[index].videoWidth, videoHeight := c[index].videoHeight) == c[index]
    ensures WellFormed(c) ==> WellFormed(r)
  {
    c[index := c[index].(videoHeight := Some(videoHeight), videoWidth := Some(videoWidth))]
  }

  /** Attaching the same dimensions twice is the same as attaching them once. */
  lemma AttachIdempotent(c: seq<RecordedVideo>, index: nat, videoWidth: nat, videoHeight: nat)
    requires index < |c|
    ensures AttachDimensions(AttachDimensions(c, index, videoWidth, videoHeight), index, videoWidth, videoHeight)
         == AttachDimensions(c, index, videoWidth, videoHeight)
  {
  }

  /** Indexes are stable: attaching before or after a newer clip is appended gives the same catalog. */
  lemma AttachCommutesWithAppend(c: seq<RecordedVideo>, index: nat, videoWidth: nat, videoHeight: nat,
                                 s: Selection, size: string, mimeType: string, url: string)
    requires index < |c|
    ensures Append(AttachDimensions(c, index, videoWidth, videoHeight), s, size, mimeType, url)
         == AttachDimensions(Append(c, s, size, mimeType, url), index, videoWidth, videoHeight)
  {
  }

  /** Two clips with different sequence numbers get different names. */
  lemma RecordNameInjective(a: nat, b: nat)
    requires RecordName(a) == RecordName(b)
    ensures a == b
  {
    var x, y := NatToString(a), NatToString(b);
    var n := |NAME_PREFIX|;
    assert |x| == |y|;
    assert x == RecordName(a)[n..n + |x|];
    assert y == RecordName(b)[n..n + |y|];
    NatToStringInjective(a, b);
  }

  /** In a well-formed catalog every clip has its own name, so download names never collide. */
  lemma WellFormedNamesDistinct(c: seq<RecordedVideo>)
    requires WellFormed(c)
    ensures forall i, j :: 0 <= i < j < |c| ==> c[i].name != c[j].name
  {
    forall i, j | 0 <= i < j < |c| ensures c[i].name != c[j].name {
      if c[i].name == c[j].name {
        RecordNameInjective(i + 1, j + 1);
      }
    }
  }

  /** The first clip is "VideoRecord-1.webm". */
  lemma FirstRecordName()
    ensures RecordName(1) == "VideoRecord-1.webm"
  {
    assert NatToString(1) == "1";
  }
}

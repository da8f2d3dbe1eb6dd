/**
 * The recording page's controller: it probes the camera once, keeps the capture
 * selection, drives a recorder over a live stream and collects finished clips.
 * Browser media calls and the recorder library are outside the model; their
 * outcomes arrive as method parameters.
 */
module Session {
  import opened Wrappers
  import opened Tables
  import opened Parameters
  import opened Constraints
  import opened Catalog

  /** A camera track: live until stopped. */
  class Track {
    var live: bool

    constructor ()
      ensures live
    {
      live := true;
    }
  }

  /** A media stream: a fixed list of tracks. Several streams may share tracks. */
  class MediaStream {
    const tracks: seq<Track>

    constructor (tracks: seq<Track>)
      ensures this.tracks == tracks
    {
      this.tracks := tracks;
    }

    /** `new MediaStream(other)`: a new stream over the same tracks. */
    constructor Wrap(other: MediaStream)
      ensures tracks == other.tracks
    {
      tracks := other.tracks;
    }

    /** `getTracks().forEach(track => track.stop())`. */
    method StopAllTracks()
      modifies tracks
      ensures forall t :: t in tracks ==> !t.live
    {
      for i := 0 to |tracks|
        invariant forall j :: 0 <= j < i ==> !tracks[j].live
      {
        tracks[i].live := false;
      }
    }
  }

  datatype RecorderState = Inactive | Recording | Stopped

  /** A recorder handle: bound to one stream, a MIME type and `bitsPerSecond` when created. */
  class Recorder {
    const stream: MediaStream
    const mimeType: string
    const bitsPerSecond: JsNumber
    var state: RecorderState

    constructor (stream: MediaStream, mimeType: string, bitsPerSecond: JsNumber)
      ensures this.stream == stream && this.mimeType == mimeType && this.bitsPerSecond == bitsPerSecond
      ensures state == Inactive
    {
      this.stream := stream;
      this.mimeType := mimeType;
      this.bitsPerSecond := bitsPerSecond;
      state := Inactive;
    }

    method StartRecording()
      modifies this
      ensures state == Recording
    {
      state := Recording;
    }

    method StopRecording()
      modifies this
      ensures state == Stopped
    {
      state := Stopped;
    }
  }

  /** Why the camera probe failed before any stream was handed out. */
  datatype ProbeError = EnumerationFailed | NoVideoInput | AccessDenied

  /**
   * The probe's outcome: no stream at all; a probing stream whose first video track
   * or its capabilities could not be read; or a probing stream with the capabilities.
   */
  datatype ProbeOutcome =
    | ProbeFailed(error: ProbeError)
    | CapabilityUnreadable(stream: MediaStream)
    | Probed(stream: MediaStream, capability: Capability)

  /** The tracks of the probing stream, if the browser handed one out. */
  function ProbeTracks(outcome: ProbeOutcome): seq<Track> {
    if outcome.ProbeFailed? then [] else outcome.stream.tracks
  }

  class App {
    var isRecording: bool
    var fetchingCameraInfo: bool
    var capability: Option<Capability>
    var selection: Selection
    var recordedVideo: seq<RecordedVideo>
    /** The recorder ref. */
    var mediaRecorder: Recorder?
    /** The stream ref. */
    var mediaStream: MediaStream?
    /** The preview element's source. */
    var preview: MediaStream?

    /**
     * A recorder exists only over the current stream ref (never without a stream),
     * a recorder that is still recording is the one the page shows as recording,
     * and the catalog is well formed.
     */
    ghost predicate Valid()
      reads this, mediaRecorder
    {
      (mediaRecorder != null ==> mediaStream != null && mediaRecorder.stream == mediaStream) &&
      (mediaRecorder != null && mediaRecorder.state == Recording ==> isRecording) &&
      WellFormed(recordedVideo)
    }

    /** The page as first rendered: fetching camera info, nothing selected, nothing recorded. */
    constructor ()
      ensures Valid()
      ensures !isRecording && fetchingCameraInfo && capability.None?
      ensures selection == UNSET && Consistent(selection)
      ensures recordedVideo == []
      ensures mediaRecorder == null && mediaStream == null && preview == null
    {
      isRecording := false;
      fetchingCameraInfo := true;
      capability := None;
      selection := UNSET;
      recordedVideo := [];
      mediaRecorder := null;
      mediaStream := null;
      preview := null;
    }

    /**
     * The camera probe as the page runs it. On success the capability is stored, the
     * selection re-derived from it and the probing stream released; on any failure
     * capability and selection stay as they were. Either way the loading flag ends
     * false. When the stream was handed out but its capabilities could not be read,
     * the release is skipped and the probing stream's tracks stay as they were (live).
     */
    method GetCameraCapability(outcome: ProbeOutcome)
      requires Valid()
      modifies this`capability, this`selection, this`fetchingCameraInfo, ProbeTracks(outcome)
      ensures Valid()
      ensures !fetchingCameraInfo
      ensures outcome.Probed? ==>
        capability == Some(outcome.capability) &&
        selection == ApplyCapability(old(selection), outcome.capability) &&
        forall t :: t in outcome.stream.tracks ==> !t.live
      ensures !outcome.Probed? ==> capability == old(capability) && selection == old(selection)
      ensures outcome.CapabilityUnreadable? ==> forall t :: t in outcome.stream.tracks ==> t.live == old(t.live)
      ensures Consistent(old(selection)) ==> Consistent(selection)
    {
      if outcome.Probed? {
        capability := Some(outcome.capability);
        selection := ApplyCapability(selection, outcome.capability);
        outcome.stream.StopAllTracks();
      }
      fetchingCameraInfo := false;
    }

    /**
     * The probe with the release on every path that obtained a stream: no probing
     * track is left live, whatever went wrong after the stream was handed out.
     */
    method GetCameraCapabilityReleasing(outcome: ProbeOutcome)
      requires Valid()
      modifies this`capability, this`selection, this`fetchingCameraInfo, ProbeTracks(outcome)
      ensures Valid()
      ensures !fetchingCameraInfo
      ensures outcome.Probed? ==>
        capability == Some(outcome.capability) &&
        selection == ApplyCapability(old(selection), outcome.capability)
      ensures !outcome.Probed? ==> capability == old(capability) && selection == old(selection)
      ensures forall t :: t in ProbeTracks(outcome) ==> !t.live
      ensures Consistent(old(selection)) ==> Consistent(selection)
    {
      if outcome.Probed? {
        capability := Some(outcome.capability);
        selection := ApplyCapability(selection, outcome.capability);
      }
      if !outcome.ProbeFailed? {
        outcome.stream.StopAllTracks();
      }
      fetchingCameraInfo := false;
    }

    method OnResolutionChange(res: Resolution)
      requires Valid()
      modifies this`selection
      ensures Valid()
      ensures selection == SelectResolution(old(selection), res)
      ensures Consistent(old(selection)) ==> Consistent(selection)
    {
      selection := SelectResolution(selection, res);
    }

    method OnFrameRateChange(fr: FrameRate)
      requires Valid()
      modifies this`selection
      ensures Valid()
      ensures selection == SelectFrameRate(old(selection), fr)
      ensures Consistent(old(selection)) ==> Consistent(selection)
    {
      selection := SelectFrameRate(selection, fr);
    }

    method OnBitRateChange(b: BitRate)
      requires Valid()
      modifies this`selection
      ensures Valid()
      ensures selection == SelectBitRate(old(selection), b)
    {
      selection := SelectBitRate(selection, b);
    }

    /**
     * Start: request a stream with the current constraints (`acquired` is the browser's
     * answer), then flag recording, then, if a stream ref exists, create and start a
     * recorder over it. A failed request keeps the previous stream ref. The record
     * button dispatches here only while the page is not recording, so the recorder
     * being replaced, if any, is no longer recording.
     */
    method StartVideoRecording(acquired: Option<MediaStream>) returns (requested: VideoConstraints)
      requires Valid() && !isRecording
      modifies this`isRecording, this`mediaStream, this`mediaRecorder, this`preview
      ensures Valid()
      ensures requested == BuildConstraints(selection.resolution, selection.frameRate, IS_PORTRAIT)
      ensures isRecording
      ensures old(mediaRecorder) != null ==> old(mediaRecorder).state != Recording
      ensures acquired.Some? ==>
        fresh(mediaStream) && mediaStream.tracks == acquired.value.tracks && preview == acquired.value
      ensures acquired.None? ==> mediaStream == old(mediaStream) && preview == old(preview)
      ensures mediaStream == null ==> mediaRecorder == old(mediaRecorder)
      ensures mediaStream != null ==>
        fresh(mediaRecorder) && mediaRecorder.stream == mediaStream &&
        mediaRecorder.mimeType == MIME_TYPE &&
        mediaRecorder.bitsPerSecond == NumberOf(if selection.bitRate.Some? then Some(selection.bitRate.value.BitsPerSecond()) else None) &&
        mediaRecorder.state == Recording
    {
      requested := BuildConstraints(selection.resolution, selection.frameRate, IS_PORTRAIT);
      if acquired.Some? {
        mediaStream := new MediaStream.Wrap(acquired.value);
        preview := acquired.value;
      }
      isRecording := true;
      if mediaStream == null {
        // the page alerts "Cannot record Now"
        return;
      }
      var bits := if selection.bitRate.Some? then Some(selection.bitRate.value.BitsPerSecond()) else None;
      var media := new Recorder(mediaStream, MIME_TYPE, NumberOf(bits));
      mediaRecorder := media;
      media.StartRecording();
    }

    /** Stop: recording is flagged off at once; a recorder, if any, is asked to stop. */
    method StopVideoRecording()
      requires Valid()
      modifies this`isRecording, mediaRecorder
      ensures Valid()
      ensures !isRecording
      ensures mediaRecorder != null ==> mediaRecorder.state == Stopped
    {
      isRecording := false;
      if mediaRecorder == null {
        return;
      }
      mediaRecorder.StopRecording();
    }

    /**
     * The recorder's stop callback with the finished blob's size label, type and URL:
     * one descriptor is appended, the stream ref's tracks are stopped and the preview
     * cleared. The stream and recorder refs stay as they are.
     */
    method OnRecordingStopped(size: string, mimeType: string, url: string)
      requires Valid() && mediaRecorder != null && mediaRecorder.state == Stopped
      modifies this`recordedVideo, this`preview, mediaStream.tracks
      ensures Valid()
      ensures recordedVideo == Append(old(recordedVideo), selection, size, mimeType, url)
      ensures forall t :: t in mediaStream.tracks ==> !t.live
      ensures preview == null
    {
      recordedVideo := Append(recordedVideo, selection, size, mimeType, url);
      mediaStream.StopAllTracks();
      preview := null;
    }

    /** The clip at `index` reported its pixel dimensions. */
    method OnLoadedMetadata(index: nat, videoWidth: nat, videoHeight: nat)
      requires Valid() && index < |recordedVideo|
      modifies this`recordedVideo
      ensures Valid()
      ensures recordedVideo == AttachDimensions(old(recordedVideo), index, videoWidth, videoHeight)
    {
      recordedVideo := AttachDimensions(recordedVideo, index, videoWidth, videoHeight);
    }
  }

  /** Probing a camera that can do 1280x720 at 30 fps selects 1280x720, 30 fps and 8000000 bps and releases the probe. */
  method ProbeScenario()
  {
    var app := new App();
    var probeTrack := new Track();
    var probeStream := new MediaStream([probeTrack]);
    app.GetCameraCapability(Probed(probeStream, Capability(Some(30.0), Some(1280), Some(720))));
    Probe720pCamera();
    assert app.selection == Selection(Some(R1280x720), Some(Fps30), Some(Bps8000000));
    assert !probeTrack.live && !app.fetchingCameraInfo;
  }

  /**
   * One recording from the state the probe scenario ends in (1280x720, 30 fps,
   * 8000000 bps, empty catalog, no stream yet): the request is rotated to 720x1280
   * and carries no frame rate, the recorder runs at 8000000 bps, and afterwards the
   * catalog holds the clip "VideoRecord-1" at 1280x720, the recording stream's track
   * is stopped and the page is no longer recording.
   */
  method RecordingScenario(app: App, camTrack: Track)
    requires app.Valid() && !app.isRecording && app.mediaStream == null && app.recordedVideo == []
    requires app.selection == Selection(Some(R1280x720), Some(Fps30), Some(Bps8000000))
    modifies app, camTrack
  {
    var cam := new MediaStream([camTrack]);
    var requested := app.StartVideoRecording(Some(cam));
    assert requested.width == Finite(720) && requested.height == Finite(1280) && requested.frameRate.None?;
    assert app.mediaRecorder.bitsPerSecond == Finite(8000000) && app.mediaRecorder.state == Recording;
    assert camTrack in app.mediaStream.tracks;

    app.StopVideoRecording();
    assert !app.isRecording;
    app.OnRecordingStopped("1.5 MB", "video/webm", "blob:clip-1");
    assert !camTrack.live;
    assert |app.recordedVideo| == 1 && app.recordedVideo[0].resolution == Some(R1280x720);
    assert app.recordedVideo[0].name == RecordName(1);
  }

  /**
   * A probing stream is handed out but its capabilities cannot be read: as the page
   * runs it, the probing track stays live; with the release on every path it is stopped.
   */
  method ProbeLeakScenario()
  {
    var app := new App();
    var probeTrack := new Track();
    var probeStream := new MediaStream([probeTrack]);
    app.GetCameraCapability(CapabilityUnreadable(probeStream));
    assert probeTrack.live && app.capability.None? && !app.fetchingCameraInfo;

    var fixedApp := new App();
    fixedApp.GetCameraCapabilityReleasing(CapabilityUnreadable(probeStream));
    assert !probeTrack.live && fixedApp.capability.None?;
  }
}

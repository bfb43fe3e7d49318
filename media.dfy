/** The mute and camera buttons of a live class (`toggleMute`, `toggleVideo`
  * in static/js/live_class.js): module-level flags flipped together with the
  * `enabled` flag of the first local audio or video track. */
module Media {

  datatype TrackKind = Audio | Video

  /** A media track; its `enabled` flag is what the toggles change in place. */
  class Track {
    const kind: TrackKind
    var enabled: bool

    /** Tracks handed out by the camera and microphone start enabled. */
    constructor (kind: TrackKind)
      ensures this.kind == kind && enabled
    {
      this.kind := kind;
      enabled := true;
    }
  }

  /** The local stream: its audio tracks and its video tracks, in order. */
  class Stream {
    const audioTracks: seq<Track>
    const videoTracks: seq<Track>

    predicate Valid() {
      && (forall i :: 0 <= i < |audioTracks| ==> audioTracks[i].kind == Audio)
      && (forall i :: 0 <= i < |videoTracks| ==> videoTracks[i].kind == Video)
    }

    constructor (audioTracks: seq<Track>, videoTracks: seq<Track>)
      ensures this.audioTracks == audioTracks && this.videoTracks == videoTracks
    {
      this.audioTracks := audioTracks;
      this.videoTracks := videoTracks;
    }
  }

  /** The glyph shown on the mute button. */
  datatype MicIcon = Microphone | MicrophoneSlash
  /** The glyph shown on the video button. */
  datatype VideoIcon = VideoCamera | VideoSlash

  function MicIconFor(muted: bool): MicIcon {
    if muted then MicrophoneSlash else Microphone
  }

  function VideoIconFor(off: bool): VideoIcon {
    if off then VideoSlash else VideoCamera
  }

  /** `localStream`, `isMuted`, `isVideoOff` and the two buttons' icons. The
    * stream is undefined (null) until the camera and microphone were granted. */
  class MediaControls {
    var localStream: Stream?
    var isMuted: bool
    var isVideoOff: bool
    var muteIcon: MicIcon
    var videoIcon: VideoIcon

    /** The first audio track, if there is a stream with one. */
    function AudioTrack(): Track?
      reads this
    {
      if localStream != null && |localStream.audioTracks| > 0 then localStream.audioTracks[0] else null
    }

    /** The first video track, if there is a stream with one. */
    function VideoTrack(): Track?
      reads this
    {
      if localStream != null && |localStream.videoTracks| > 0 then localStream.videoTracks[0] else null
    }

    /** The flags, the tracks and the icons agree: a track is enabled exactly
      * when its flag is off, and each icon shows its flag. */
    ghost predicate Valid()
      reads this, AudioTrack(), VideoTrack()
    {
      && (localStream != null ==> localStream.Valid())
      && (AudioTrack() != null ==> AudioTrack().enabled == !isMuted)
      && (VideoTrack() != null ==> VideoTrack().enabled == !isVideoOff)
      && muteIcon == MicIconFor(isMuted)
      && videoIcon == VideoIconFor(isVideoOff)
    }

    /** The page after `initMediaStream`: `stream` is the granted stream, or
      * null when access was refused. Both flags start false. */
    constructor (stream: Stream?)
      requires stream != null ==> stream.Valid()
      requires stream != null && |stream.audioTracks| > 0 ==> stream.audioTracks[0].enabled
      requires stream != null && |stream.videoTracks| > 0 ==> stream.videoTracks[0].enabled
      ensures Valid() && localStream == stream && !isMuted && !isVideoOff
    {
      localStream := stream;
      isMuted, isVideoOff := false, false;
      muteIcon, videoIcon := Microphone, VideoCamera;
    }

    /** `toggleMute()`: with an audio track, flip `isMuted`, enable the track
      * exactly when not muted, and show the matching icon; without a stream
      * or an audio track, change nothing. */
    method ToggleMute()
      modifies this`isMuted, this`muteIcon, AudioTrack()
      ensures AudioTrack() == old(AudioTrack())
      ensures old(AudioTrack()) == null ==> isMuted == old(isMuted) && muteIcon == old(muteIcon)
      ensures old(AudioTrack()) != null ==>
        isMuted == !old(isMuted) && AudioTrack().enabled == !isMuted && muteIcon == MicIconFor(isMuted)
      ensures old(Valid()) ==> Valid()
    {
      if localStream != null {
        var audioTracks := localStream.audioTracks;
        if |audioTracks| > 0 {
          isMuted := !isMuted;
          audioTracks[0].enabled := !isMuted;
          muteIcon := MicIconFor(isMuted);
        }
      }
    }

    /** `toggleVideo()`: the same for `isVideoOff` and the first video track. */
    method ToggleVideo()
      modifies this`isVideoOff, this`videoIcon, VideoTrack()
      ensures VideoTrack() == old(VideoTrack())
      ensures old(VideoTrack()) == null ==> isVideoOff == old(isVideoOff) && videoIcon == old(videoIcon)
      ensures old(VideoTrack()) != null ==>
        isVideoOff == !old(isVideoOff) && VideoTrack().enabled == !isVideoOff && videoIcon == VideoIconFor(isVideoOff)
      ensures old(Valid()) ==> Valid()
    {
      if localStream != null {
        var videoTracks := localStream.videoTracks;
        if |videoTracks| > 0 {
          isVideoOff := !isVideoOff;
          videoTracks[0].enabled := !isVideoOff;
          videoIcon := VideoIconFor(isVideoOff);
        }
      }
    }
  }

  /** Pressing the mute button twice restores the flag, the track and the icon. */
  method MuteTwiceRestores(m: MediaControls)
    requires m.Valid()
    modifies m`isMuted, m`muteIcon, m.AudioTrack()
    ensures m.isMuted == old(m.isMuted) && m.muteIcon == old(m.muteIcon)
    ensures m.AudioTrack() != null ==> m.AudioTrack().enabled == old(m.AudioTrack().enabled)
    ensures m.Valid()
  {
    m.ToggleMute();
    m.ToggleMute();
  }

  /** Pressing the video button twice restores the flag, the track and the icon. */
  method VideoTwiceRestores(m: MediaControls)
    requires m.Valid()
    modifies m`isVideoOff, m`videoIcon, m.VideoTrack()
    ensures m.isVideoOff == old(m.isVideoOff) && m.videoIcon == old(m.videoIcon)
    ensures m.VideoTrack() != null ==> m.VideoTrack().enabled == old(m.VideoTrack().enabled)
    ensures m.Valid()
  {
    m.ToggleVideo();
    m.ToggleVideo();
  }
}

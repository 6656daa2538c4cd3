/** A sound track as the sound module stores it: a file, a non-empty title
    and one of four statuses. Both revisions of the class behave alike;
    they differ only in the names of fields and parameters. */
module SoundTracks {
  import opened Wrappers

  const StatusReady: int := 30001
  const StatusCued: int := 30002
  const StatusPlaying: int := 30003
  const StatusPaused: int := 30004

  /** An opaque handle on the audio file (a `java.io.File`). */
  datatype FileRef = FileRef(id: nat)

  /** The four statuses a track may have. */
  predicate IsTrackStatus(status: int)
  {
    status == StatusReady || status == StatusCued || status == StatusPlaying || status == StatusPaused
  }

  class SoundTrack {
    /** The audio file; it never changes after construction. */
    const trackFile: FileRef
    var trackTitle: string
    var trackStatus: int
    /** How many times `dataUpdated` has been signalled. */
    var dataUpdates: nat

    /** The title is never empty and the status is one of the four. */
    ghost predicate Valid()
      reads this
    {
      trackTitle != [] && IsTrackStatus(trackStatus)
    }

    /** The successful path of the source's constructor. */
    constructor Init(file: FileRef, title: string)
      requires title != []
      ensures Valid()
      ensures trackFile == file && trackTitle == title && trackStatus == StatusReady
      ensures dataUpdates == 0
    {
      trackFile := file;
      trackTitle := title;
      trackStatus := StatusReady;
      dataUpdates := 0;
    }

    /** The stored file. */
    function GetFile(): (file: FileRef)
      reads this
      ensures file == trackFile
    {
      trackFile
    }

    /** The stored title, which is never empty. */
    function GetTitle(): (title: string)
      reads this
      ensures title == trackTitle
      ensures Valid() ==> title != []
    {
      trackTitle
    }

    /** The stored status, which is always one of the four. */
    function GetStatus(): (status: int)
      reads this
      ensures status == trackStatus
      ensures Valid() ==> IsTrackStatus(status)
    {
      trackStatus
    }

    /** Replaces the title; an empty title is refused with nothing changed
        and nothing signalled. */
    method SetTitle(title: string) returns (r: Status)
      requires Valid()
      modifies this
      ensures Valid() && trackStatus == old(trackStatus)
      ensures r == if title == [] then Failed(OperationFailed(NoTitleProvided)) else Done
      ensures r.Done? ==> trackTitle == title && dataUpdates == old(dataUpdates) + 1
      ensures r.Failed? ==> trackTitle == old(trackTitle) && dataUpdates == old(dataUpdates)
    {
      if |title| == 0 {
        return Failed(OperationFailed(NoTitleProvided));
      } else {
        trackTitle := title;
        dataUpdates := dataUpdates + 1;
        r := Done;
      }
    }

    /** Sets the status; anything but the four statuses is refused with
        nothing changed and nothing signalled. */
    method SetStatus(status: int) returns (r: Status)
      requires Valid()
      modifies this
      ensures Valid() && trackTitle == old(trackTitle)
      ensures r == if IsTrackStatus(status) then Done else Failed(OperationFailed(InvalidStatus(status)))
      ensures r.Done? ==> trackStatus == status && dataUpdates == old(dataUpdates) + 1
      ensures r.Failed? ==> trackStatus == old(trackStatus) && dataUpdates == old(dataUpdates)
    {
      if !IsTrackStatus(status) {
        return Failed(OperationFailed(InvalidStatus(status)));
      }
      trackStatus := status;
      dataUpdates := dataUpdates + 1;
      r := Done;
    }
  }

  /** The source's constructor: a missing file (`None`, Java's `null`) is
      refused first, then an empty title; otherwise the track starts out
      READY. */
  method NewSoundTrack(file: Option<FileRef>, title: string) returns (r: Result<SoundTrack>)
    ensures r == Err(OperationFailed(NoFileProvided)) <==> file.None?
    ensures r == Err(OperationFailed(NoTitleProvided)) <==> file.Some? && title == []
    ensures r.Ok? <==> file.Some? && title != []
    ensures r.Ok? ==> fresh(r.value) && r.value.Valid() && r.value.trackFile == file.value &&
                      r.value.trackTitle == title && r.value.trackStatus == StatusReady &&
                      r.value.dataUpdates == 0
  {
    if file.None? {
      return Err(OperationFailed(NoFileProvided));
    }
    if |title| == 0 {
      return Err(OperationFailed(NoTitleProvided));
    } else {
      var track := new SoundTrack.Init(file.value, title);
      return Ok(track);
    }
  }
}

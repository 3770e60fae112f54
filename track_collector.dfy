/**
 * TrackCollector (Assets/_Project/MetricRecorder/TrackCollector.cs): the
 * recorders' tracks, in the order they were added, handed out as a copy.
 */
module Collecting {
  import opened Tracks

  class TrackCollector {
    /** The list, created with the component; it is never set to null. */
    var tracks: seq<Track>

    constructor ()
      ensures tracks == []
    {
      tracks := [];
    }

    /** AddTrack: appends at the end. */
    method AddTrack(track: Track)
      modifies this
      ensures tracks == old(tracks) + [track]
    {
      tracks := tracks + [track];
    }

    /**
     * GetTracks: a new array with the tracks in insertion order. The list is
     * not modified, and the array is fresh, so later additions to the list
     * do not show in it. The null result for a null list cannot occur.
     */
    method GetTracks() returns (collection: array<Track>)
      ensures fresh(collection)
      ensures collection[..] == tracks
    {
      collection := new Track[|tracks|](i requires 0 <= i < |tracks| reads this => tracks[i]);
    }
  }
}

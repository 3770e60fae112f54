/**
 * The recorded data (Assets/_Project/Tracks/Track.cs): a track is a named
 * series of instances, each a SerializableDictionary's list of key/value
 * pairs, produced by the recorders and drawn by the metric tracks.
 */
module Tracks {
  import opened Text
  import opened KeyValueStore

  /**
   * TrackType declares only Metric; as a C# enum it can still hold any other
   * integer, which is what the metric tracks' type checks reject.
   */
  datatype TrackType = Metric | Other(code: int)

  /** Enum.ToString(): the name of a declared member, else the number. */
  function TrackTypeName(t: TrackType): string
  {
    match t
    case Metric => "Metric"
    case Other(code) => IntToString(code)
  }

  datatype Color = Color(r: real, g: real, b: real, a: real)

  /** Unity's Color with three components has alpha 1. */
  function Rgb(r: real, g: real, b: real): Color
  {
    Color(r, g, b, 1.0)
  }

  /** One recorded instance: the keyValuePairs of its SerializableDictionary. */
  type Instance = seq<Pair>

  /**
   * A track. The metric tracks read a `color` that the track class in
   * Tracks/Track.cs does not declare; the model gives every track one.
   */
  datatype Track = Track(trackType: TrackType, iconName: string, name: string, color: Color, instances: seq<Instance>)
}

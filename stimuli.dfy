/** The stimulus record shared by the labelling tool and the rotation experiment. */
module Stimuli {
  import opened Common

  /**
   * How the `is_mirror` key of a stored record reads: the key is missing, it holds JSON `null`
   * (not yet annotated), or it holds a boolean label.
   */
  datatype MirrorField = Absent | Null | Label(mirror: bool)

  datatype Vertex = Vertex(x: real, y: real, z: real)

  /** Geometry drawn by the renderer; the core only carries it along. */
  datatype Figure = Figure(vertices: seq<Vertex>, edges: seq<(nat, nat)>, faces: seq<seq<nat>>)

  /** Base orientation in degrees. */
  datatype Orientation = Orientation(x: real, y: real, z: real)

  /** One stimulus pair. `angle` is `None` when the record has no `angle` key. */
  datatype Stimulus = Stimulus(
    id: string,
    figureLeft: Figure,
    figureRight: Figure,
    rotation: Orientation,
    angle: Option<real>,
    isMirror: MirrorField)

  /** `s.get('is_mirror') is not None`: the record carries a boolean label. */
  predicate IsLabelled(s: Stimulus)
  {
    s.isMirror.Label?
  }

  /** `s.get('is_mirror', False)`: `False` for a missing key, `None` for JSON null. */
  function MirrorOrFalse(s: Stimulus): (m: Option<bool>)
    ensures m.None? <==> s.isMirror == Null
    ensures IsLabelled(s) ==> m == Some(s.isMirror.mirror)
    ensures s.isMirror == Absent ==> m == Some(false)
  {
    match s.isMirror
    case Absent => Some(false)
    case Null => None
    case Label(b) => Some(b)
  }

  /** `s.get('angle', 0.0)`. */
  function AngleOrZero(s: Stimulus): real
  {
    match s.angle
    case None => 0.0
    case Some(a) => a
  }
}

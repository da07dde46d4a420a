/** The action/outcome protocol: the commands agents and tasks issue, the
    outcomes the performer returns for them, and the ranges that bound the
    numbers they carry. */
module Actions {
  import opened Wrappers
  import opened Geometry
  import opened Ranges
  import opened Voxels

  /** Bodies and agents are referred to by identity. */
  type BodyId = nat
  type AgentId = nat

  datatype LinkType = Soft | Rigid

  /** The anchors of one side of a body, body.anchorsOn(side). */
  datatype SideAnchors = AnchorsOn(body: BodyId, side: Side)

  datatype Action =
    | CreateVoxel(sideLength: real, mass: real, material: Material)
    | CreateUnmovableBody(poly: Poly)
    | AddAgent(agent: AgentId)
    | TranslateAgent(agent: AgentId, translation: Point)
    | AddAndTranslateAgent(agent: AgentId, translation: Point)
    | ActuateVoxel(body: BodyId, values: map<Side, real>)
    | AttractAndLinkClosestAnchorable(anchors: SideAnchors, nOfLinks: nat, linkType: LinkType)
    | DetachAnchors(anchors: SideAnchors)
    | EmitNfcMessage(body: BodyId, displacement: Point, direction: real, channel: int, value: real)
    | SenseNfc(body: BodyId, displacement: Point, direction: real, channel: int)
    | SenseSideAttachment(side: Side, body: BodyId)
      /** Any other sense action a sensor produces, with its own range. */
    | SenseBy(sensor: string, body: BodyId, range: Interval)

  /** Whether the action is a Sense action (its outcome is a sensed number). */
  predicate IsSense(a: Action) {
    a.SenseNfc? || a.SenseSideAttachment? || a.SenseBy?
  }

  /** The range a sense or actuation action declares for its number. */
  function Range(a: Action): (r: Interval)
    requires IsSense(a) || a.ActuateVoxel?
    ensures a.SenseSideAttachment? ==> r == Unit
    ensures a.ActuateVoxel? ==> r == SymmetricUnit
  {
    match a
    case SenseSideAttachment(_, _) => Unit
    case SenseBy(_, _, range) => range
    case SenseNfc(_, _, _, _) => SymmetricUnit
    case ActuateVoxel(_, _) => SymmetricUnit
  }

  /** What an outcome can carry: a sensed number, a created body, an agent. */
  datatype Value = RealValue(r: real) | BodyValue(body: BodyId) | AgentValue(agent: AgentId) | Done

  /** An issued action paired with its optional result. */
  datatype ActionOutcome = ActionOutcome(action: Action, outcome: Option<Value>)

  /** outcome().orElse(0d) for the outcome of a sense action. */
  function SensedOrZero(o: Option<Value>): (v: real)
    ensures o == None ==> v == 0.0
    ensures o.Some? && o.value.RealValue? ==> v == o.value.r
  {
    match o
    case Some(RealValue(r)) => r
    case _ => 0.0
  }

  /** ActuateVoxel(voxel, nValue, eValue, sValue, wValue). */
  function ActuateEach(body: BodyId, n: real, e: real, s: real, w: real): (a: Action)
    ensures a.ActuateVoxel? && a.body == body
    ensures a.values.Keys == {N, E, S, W}
    ensures a.values[N] == n && a.values[E] == e && a.values[S] == s && a.values[W] == w
  {
    ActuateVoxel(body, map[N := n, E := e, S := s, W := w])
  }

  /** ActuateVoxel(voxel, value): the same value on every side. */
  function Actuate(body: BodyId, value: real): (a: Action)
    ensures a.ActuateVoxel? && a.body == body
    ensures a.values.Keys == {N, E, S, W}
    ensures forall s: Side :: s in a.values ==> a.values[s] == value
  {
    ActuateEach(body, value, value, value, value)
  }

  /** The values are stored as given: nothing is clipped at construction, so a
      value outside the actuation range stays outside it. */
  lemma {:induction false} ActuateKeepsValue(body: BodyId, value: real)
    ensures Actuate(body, value).values[N] == value
    ensures !Contains(Range(Actuate(body, value)), value) <==> value < -1.0 || value > 1.0
  {
  }

  /** Java's (short) cast: wraps an int into [-32768, 32767]. */
  function ToShort(j: int): (r: int)
    ensures -32768 <= r < 32768
    ensures (r - j) % 65536 == 0
    ensures -32768 <= j < 32768 ==> r == j
  {
    (j + 32768) % 65536 - 32768
  }
}

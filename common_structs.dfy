/** Shared records of the installation: vectors, the animation state machine's
    states and the parameter records exchanged between the three screens.
    Floating-point fields are modelled as `real`. */
module CommonStructs {

  /** ofVec3f, with exact real components. */
  datatype Vec3 = Vec3(x: real, y: real, z: real)

  /** ofVec2f, with exact real components. */
  datatype Vec2 = Vec2(x: real, y: real)

  const Origin := Vec3(0.0, 0.0, 0.0)

  function Add(a: Vec3, b: Vec3): Vec3 { Vec3(a.x + b.x, a.y + b.y, a.z + b.z) }

  function Sub(a: Vec3, b: Vec3): Vec3 { Vec3(a.x - b.x, a.y - b.y, a.z - b.z) }

  function Scale(a: Vec3, k: real): Vec3 { Vec3(a.x * k, a.y * k, a.z * k) }

  function Cross(a: Vec3, b: Vec3): Vec3
  {
    Vec3(a.y * b.z - a.z * b.y, a.z * b.x - a.x * b.z, a.x * b.y - a.y * b.x)
  }

  function Min(a: real, b: real): real { if b < a then b else a }

  function Max(a: real, b: real): real { if a < b then b else a }

  /** std::max({a, b, c}) */
  function Max3(v: Vec3): real { Max(Max(v.x, v.y), v.z) }

  /** Concatenation regrouped; a hint for proofs that append to a buffer. */
  lemma SeqAssoc<T>(a: seq<T>, b: seq<T>, c: seq<T>)
    ensures a + b + c == a + (b + c)
  {
  }

  /** Four appends in turn append the four elements. */
  lemma SnocFour<T>(r: seq<T>, a: T, b: T, c: T, d: T)
    ensures r + [a] + [b] + [c] + [d] == r + [a, b, c, d]
  {
  }

  /** The enum AnimationState. */
  datatype AnimationState = Calm | Intense | Transition

  /** The enum LightingMode. */
  datatype LightingMode = WarmLight | CoolLight | ColorfulLight | DramaticLight

  /** AnimationParams; the field order is the order of its six-argument constructor. */
  datatype AnimationParams = AnimationParams(
    noiseStrength: real,
    breathAmount: real,
    flowFieldStrength: real,
    particleBlend: real,
    connectionDistance: real,
    emissionRate: int)

  /** The default constructor AnimationParams(). */
  const DefaultAnimationParams := AnimationParams(20.0, 10.0, 15.0, 0.0, 60.0, 5)

  datatype FractureParams = FractureParams(
    fractureAmount: real,
    fractureScale: real,
    explosionRadius: real,
    rotationIntensity: real,
    separationForce: real,
    enableFracture: bool)

  const DefaultFractureParams := FractureParams(0.0, 0.02, 150.0, 0.5, 50.0, false)

  datatype DissipationParams = DissipationParams(
    dissipationAmount: real,
    dissipationScale: real,
    dissipationSpeed: real,
    cloudThreshold: real,
    edgeSoftness: real,
    enableDissipation: bool)

  const DefaultDissipationParams := DissipationParams(0.0, 0.05, 1.0, 0.4, 0.15, false)

  datatype LightingParams = LightingParams(
    lightColor: Vec3,
    ambientColor: Vec3,
    lightIntensity: real,
    ambientStrength: real,
    specularShininess: real,
    autoLightRotation: bool,
    manualLightAngle: real,
    lightingMode: LightingMode)

  const DefaultLightingParams :=
    LightingParams(Vec3(1.0, 1.0, 1.0), Vec3(0.2, 0.2, 0.2), 1.0, 0.2, 64.0, true, 0.0, WarmLight)
}

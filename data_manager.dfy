/** DataManager: the store the three screens share, one sequential object
    whose setters assign its members and whose getters read them back. The
    pure part describes its state as a value and every setter as a command on
    it; the class keeps the members as fields and is proved against Apply. */
module Store {
  import opened CommonStructs
  import opened GeometryData

  /** An ofTexture, reduced to its GL name and whether storage is allocated. */
  datatype Texture = Texture(textureId: int, isAllocated: bool)

  /** A default-constructed ofTexture: nothing allocated. */
  const NoTexture := Texture(0, false)

  /** An ofFbo, reduced to an opaque handle. */
  datatype Fbo = Fbo(handle: int)

  /** A default-constructed ofFbo. */
  const DefaultFbo := Fbo(0)

  /** An ofMatrix4x4, its sixteen entries in row-major order. */
  datatype Matrix4 = Matrix4(entries: seq<real>)

  const IdentityMatrix := Matrix4([1.0, 0.0, 0.0, 0.0,
                                   0.0, 1.0, 0.0, 0.0,
                                   0.0, 0.0, 1.0, 0.0,
                                   0.0, 0.0, 0.0, 1.0])

  /** An ofVboMesh held by the store. */
  type StoredMesh = Mesh<Vec3, Vec3>

  /** The animation state and parameter members. */
  datatype AnimationData = AnimationData(
    currentState: AnimationState,
    targetState: AnimationState,
    stateTransition: real,
    transitionSpeed: real,
    currentAnimParams: AnimationParams,
    calmParams: AnimationParams,
    intenseParams: AnimationParams)

  /** The effect, lighting and geometry configuration members. */
  datatype EffectData = EffectData(
    fractureParams: FractureParams,
    dissipationParams: DissipationParams,
    lightingParams: LightingParams,
    cubeMeshConfig: CubeMeshConfig,
    flowFieldConfig: FlowFieldConfig)

  /** The render, time and control members. */
  datatype ControlData = ControlData(
    hasGeometryFboData: bool,
    geometryFbo: Fbo,
    elapsedTime: real,
    effectStartTime: real,
    debugMode: bool,
    autoEffectCycle: bool)

  /** The shared meshes, their flags, the model matrix and the model path. */
  datatype MeshData = MeshData(
    screen1Mesh: StoredMesh,
    screen2BaseMesh: StoredMesh,
    hasScreen1Data: bool,
    hasScreen2Data: bool,
    screen1ModelMatrix: Matrix4,
    currentModelPath: string)

  /** The shared position and depth textures and their flags. */
  datatype TextureData = TextureData(
    screen1PosTexture: Texture,
    screen1DepthTexture: Texture,
    screen2PosTexture: Texture,
    screen2DepthTexture: Texture,
    hasScreen1PosData: bool,
    hasScreen2PosData: bool)

  /** Every data member of DataManager (the mutex aside), grouped as the
      header groups them. */
  datatype DataState = DataState(
    animation: AnimationData,
    effects: EffectData,
    control: ControlData,
    meshes: MeshData,
    textures: TextureData)

  /** The member initialisers: calm states, no transition, speed 0.5, the
      calm and intense presets, default records, every flag false, the
      identity model matrix and an empty model path. */
  const InitialState := DataState(
    AnimationData(Calm, Calm, 0.0, 0.5, DefaultAnimationParams,
      AnimationParams(5.0, 5.0, 5.0, 0.0, 60.0, 5),
      AnimationParams(60.0, 100.0, 40.0, 0.8, 200.0, 10)),
    EffectData(DefaultFractureParams, DefaultDissipationParams, DefaultLightingParams,
      DefaultCubeMeshConfig, DefaultFlowFieldConfig),
    ControlData(false, DefaultFbo, 0.0, 0.0, false, false),
    MeshData(EmptyMesh(), EmptyMesh(), false, false, IdentityMatrix, ""),
    TextureData(NoTexture, NoTexture, NoTexture, NoTexture, false, false))

  /** A call of one of the animation setters. */
  datatype AnimationCommand =
    | SetAnimationState(state: AnimationState)
    | SetTargetState(target: AnimationState)
    | SetStateTransition(transition: real)
    | SetTransitionSpeed(speed: real)
    | SetAnimationParams(params: AnimationParams)
    | SetCalmParams(params: AnimationParams)
    | SetIntenseParams(params: AnimationParams)

  /** A call of one of the effect and configuration setters. */
  datatype EffectCommand =
    | SetFractureParams(fracture: FractureParams)
    | SetDissipationParams(dissipation: DissipationParams)
    | SetLightingParams(lighting: LightingParams)
    | SetCubeMeshConfig(cube: CubeMeshConfig)
    | SetFlowFieldConfig(flow: FlowFieldConfig)

  /** A call of one of the render, time and control setters. */
  datatype ControlCommand =
    | SetGeometryFbo(fbo: Fbo)
    | SetElapsedTime(time: real)
    | SetEffectStartTime(time: real)
    | SetDebugMode(enabled: bool)
    | SetAutoEffectCycle(enabled: bool)

  /** A call of one of the mesh-sharing setters. */
  datatype MeshCommand =
    | SetScreen1Mesh(mesh: StoredMesh)
    | SetScreen2BaseMesh(mesh: StoredMesh)
    | SetScreen1ModelMatrix(matrix: Matrix4)
    | SetCurrentModelPath(path: string)

  /** A call of one of the two position-texture setters. */
  datatype TextureCommand =
    | SetScreen1PositionTexture(pos: Texture, depth: Texture)
    | SetScreen2PositionTexture(pos: Texture, depth: Texture)

  /** One call of a setter, with its arguments, by the group it writes. */
  datatype Command =
    | Animation(animation: AnimationCommand)
    | Effects(effects: EffectCommand)
    | Control(control: ControlCommand)
    | Meshes(meshes: MeshCommand)
    | Textures(textures: TextureCommand)

  function ApplyAnimation(d: AnimationData, c: AnimationCommand): AnimationData
  {
    match c
    case SetAnimationState(v) => d.(currentState := v)
    case SetTargetState(v) => d.(targetState := v)
    case SetStateTransition(v) => d.(stateTransition := v)
    case SetTransitionSpeed(v) => d.(transitionSpeed := v)
    case SetAnimationParams(v) => d.(currentAnimParams := v)
    case SetCalmParams(v) => d.(calmParams := v)
    case SetIntenseParams(v) => d.(intenseParams := v)
  }

  function ApplyEffects(d: EffectData, c: EffectCommand): EffectData
  {
    match c
    case SetFractureParams(v) => d.(fractureParams := v)
    case SetDissipationParams(v) => d.(dissipationParams := v)
    case SetLightingParams(v) => d.(lightingParams := v)
    case SetCubeMeshConfig(v) => d.(cubeMeshConfig := v)
    case SetFlowFieldConfig(v) => d.(flowFieldConfig := v)
  }

  /** setGeometryFBO raises the flag only, dropping its argument. */
  function ApplyControl(d: ControlData, c: ControlCommand): ControlData
  {
    match c
    case SetGeometryFbo(_) => d.(hasGeometryFboData := true)
    case SetElapsedTime(v) => d.(elapsedTime := v)
    case SetEffectStartTime(v) => d.(effectStartTime := v)
    case SetDebugMode(v) => d.(debugMode := v)
    case SetAutoEffectCycle(v) => d.(autoEffectCycle := v)
  }

  /** The mesh setters also raise their mesh's flag. */
  function ApplyMeshes(d: MeshData, c: MeshCommand): MeshData
  {
    match c
    case SetScreen1Mesh(m) => d.(screen1Mesh := m, hasScreen1Data := true)
    case SetScreen2BaseMesh(m) => d.(screen2BaseMesh := m, hasScreen2Data := true)
    case SetScreen1ModelMatrix(v) => d.(screen1ModelMatrix := v)
    case SetCurrentModelPath(v) => d.(currentModelPath := v)
  }

  /** Each texture setter stores both textures and raises the screen's flag. */
  function ApplyTextures(d: TextureData, c: TextureCommand): TextureData
  {
    match c
    case SetScreen1PositionTexture(p, q) => d.(screen1PosTexture := p, screen1DepthTexture := q, hasScreen1PosData := true)
    case SetScreen2PositionTexture(p, q) => d.(screen2PosTexture := p, screen2DepthTexture := q, hasScreen2PosData := true)
  }

  /** The state after one setter: only the group it writes changes. */
  function Apply(s: DataState, c: Command): DataState
  {
    match c
    case Animation(a) => s.(animation := ApplyAnimation(s.animation, a))
    case Effects(e) => s.(effects := ApplyEffects(s.effects, e))
    case Control(k) => s.(control := ApplyControl(s.control, k))
    case Meshes(m) => s.(meshes := ApplyMeshes(s.meshes, m))
    case Textures(t) => s.(textures := ApplyTextures(s.textures, t))
  }

  /** The state after a sequence of setter calls, in order. */
  function ApplyAll(s: DataState, cmds: seq<Command>): DataState
  {
    if |cmds| == 0 then s else Apply(ApplyAll(s, cmds[..|cmds| - 1]), cmds[|cmds| - 1])
  }

  /** hasScreenNPositionData: the setter was called and the stored position
      texture is allocated. */
  predicate PositionReady(flag: bool, posTexture: Texture) { flag && posTexture.isAllocated }

  predicate SameAnimationSetter(a1: AnimationCommand, a2: AnimationCommand)
  {
    (a1.SetAnimationState? && a2.SetAnimationState?) || (a1.SetTargetState? && a2.SetTargetState?) ||
    (a1.SetStateTransition? && a2.SetStateTransition?) || (a1.SetTransitionSpeed? && a2.SetTransitionSpeed?) ||
    (a1.SetAnimationParams? && a2.SetAnimationParams?) || (a1.SetCalmParams? && a2.SetCalmParams?) ||
    (a1.SetIntenseParams? && a2.SetIntenseParams?)
  }

  predicate SameEffectSetter(e1: EffectCommand, e2: EffectCommand)
  {
    (e1.SetFractureParams? && e2.SetFractureParams?) || (e1.SetDissipationParams? && e2.SetDissipationParams?) ||
    (e1.SetLightingParams? && e2.SetLightingParams?) || (e1.SetCubeMeshConfig? && e2.SetCubeMeshConfig?) ||
    (e1.SetFlowFieldConfig? && e2.SetFlowFieldConfig?)
  }

  predicate SameControlSetter(k1: ControlCommand, k2: ControlCommand)
  {
    (k1.SetGeometryFbo? && k2.SetGeometryFbo?) || (k1.SetElapsedTime? && k2.SetElapsedTime?) ||
    (k1.SetEffectStartTime? && k2.SetEffectStartTime?) || (k1.SetDebugMode? && k2.SetDebugMode?) ||
    (k1.SetAutoEffectCycle? && k2.SetAutoEffectCycle?)
  }

  predicate SameMeshSetter(m1: MeshCommand, m2: MeshCommand)
  {
    (m1.SetScreen1Mesh? && m2.SetScreen1Mesh?) || (m1.SetScreen2BaseMesh? && m2.SetScreen2BaseMesh?) ||
    (m1.SetScreen1ModelMatrix? && m2.SetScreen1ModelMatrix?) || (m1.SetCurrentModelPath? && m2.SetCurrentModelPath?)
  }

  predicate SameTextureSetter(t1: TextureCommand, t2: TextureCommand)
  {
    (t1.SetScreen1PositionTexture? && t2.SetScreen1PositionTexture?) ||
    (t1.SetScreen2PositionTexture? && t2.SetScreen2PositionTexture?)
  }

  /** Whether two commands call the same setter (whatever their arguments). */
  predicate SameSetter(c1: Command, c2: Command)
  {
    match (c1, c2)
    case (Animation(a1), Animation(a2)) => SameAnimationSetter(a1, a2)
    case (Effects(e1), Effects(e2)) => SameEffectSetter(e1, e2)
    case (Control(k1), Control(k2)) => SameControlSetter(k1, k2)
    case (Meshes(m1), Meshes(m2)) => SameMeshSetter(m1, m2)
    case (Textures(t1), Textures(t2)) => SameTextureSetter(t1, t2)
    case _ => false
  }

  /** Calling the same setter twice is calling it once with the later
      arguments: each setter overwrites what it stores. */
  lemma LastWriteWins(s: DataState, c1: Command, c2: Command)
    requires SameSetter(c1, c2)
    ensures Apply(Apply(s, c1), c2) == Apply(s, c2)
  {
  }

  lemma AnimationSettersCommute(d: AnimationData, a1: AnimationCommand, a2: AnimationCommand)
    requires !SameAnimationSetter(a1, a2)
    ensures ApplyAnimation(ApplyAnimation(d, a1), a2) == ApplyAnimation(ApplyAnimation(d, a2), a1)
  {
  }

  lemma EffectSettersCommute(d: EffectData, e1: EffectCommand, e2: EffectCommand)
    requires !SameEffectSetter(e1, e2)
    ensures ApplyEffects(ApplyEffects(d, e1), e2) == ApplyEffects(ApplyEffects(d, e2), e1)
  {
  }

  lemma ControlSettersCommute(d: ControlData, k1: ControlCommand, k2: ControlCommand)
    requires !SameControlSetter(k1, k2)
    ensures ApplyControl(ApplyControl(d, k1), k2) == ApplyControl(ApplyControl(d, k2), k1)
  {
  }

  lemma MeshSettersCommute(d: MeshData, m1: MeshCommand, m2: MeshCommand)
    requires !SameMeshSetter(m1, m2)
    ensures ApplyMeshes(ApplyMeshes(d, m1), m2) == ApplyMeshes(ApplyMeshes(d, m2), m1)
  {
  }

  lemma TextureSettersCommute(d: TextureData, t1: TextureCommand, t2: TextureCommand)
    requires !SameTextureSetter(t1, t2)
    ensures ApplyTextures(ApplyTextures(d, t1), t2) == ApplyTextures(ApplyTextures(d, t2), t1)
  {
  }

  /** Calls of different setters commute: no two setters write the same
      member. */
  lemma DistinctSettersCommute(s: DataState, c1: Command, c2: Command)
    requires !SameSetter(c1, c2)
    ensures Apply(Apply(s, c1), c2) == Apply(Apply(s, c2), c1)
  {
    match (c1, c2)
    case (Animation(a1), Animation(a2)) => AnimationSettersCommute(s.animation, a1, a2);
    case (Effects(e1), Effects(e2)) => EffectSettersCommute(s.effects, e1, e2);
    case (Control(k1), Control(k2)) => ControlSettersCommute(s.control, k1, k2);
    case (Meshes(m1), Meshes(m2)) => MeshSettersCommute(s.meshes, m1, m2);
    case (Textures(t1), Textures(t2)) => TextureSettersCommute(s.textures, t1, t2);
    case _ =>
  }

  /** A setter changes only the group it writes. */
  lemma OtherGroupsUnchanged(s: DataState, c: Command)
    ensures !c.Animation? ==> Apply(s, c).animation == s.animation
    ensures !c.Effects? ==> Apply(s, c).effects == s.effects
    ensures !c.Control? ==> Apply(s, c).control == s.control
    ensures !c.Meshes? ==> Apply(s, c).meshes == s.meshes
    ensures !c.Textures? ==> Apply(s, c).textures == s.textures
  {
  }

  /** The animation getters return what their setters stored. */
  lemma SetThenGetAnimation(s: DataState, a: AnimationCommand)
    ensures var d := Apply(s, Animation(a)).animation;
      (a.SetAnimationState? ==> d.currentState == a.state) &&
      (a.SetTargetState? ==> d.targetState == a.target) &&
      (a.SetStateTransition? ==> d.stateTransition == a.transition) &&
      (a.SetTransitionSpeed? ==> d.transitionSpeed == a.speed) &&
      (a.SetAnimationParams? ==> d.currentAnimParams == a.params) &&
      (a.SetCalmParams? ==> d.calmParams == a.params) &&
      (a.SetIntenseParams? ==> d.intenseParams == a.params)
  {
  }

  /** The effect and configuration getters return what their setters stored. */
  lemma SetThenGetEffects(s: DataState, e: EffectCommand)
    ensures var d := Apply(s, Effects(e)).effects;
      (e.SetFractureParams? ==> d.fractureParams == e.fracture) &&
      (e.SetDissipationParams? ==> d.dissipationParams == e.dissipation) &&
      (e.SetLightingParams? ==> d.lightingParams == e.lighting) &&
      (e.SetCubeMeshConfig? ==> d.cubeMeshConfig == e.cube) &&
      (e.SetFlowFieldConfig? ==> d.flowFieldConfig == e.flow)
  {
  }

  /** The time and control getters return what their setters stored; the FBO
      getter keeps returning the stored FBO, not the one passed. */
  lemma SetThenGetControl(s: DataState, k: ControlCommand)
    ensures var d := Apply(s, Control(k)).control;
      (k.SetGeometryFbo? ==> d.hasGeometryFboData && d.geometryFbo == s.control.geometryFbo) &&
      (k.SetElapsedTime? ==> d.elapsedTime == k.time) &&
      (k.SetEffectStartTime? ==> d.effectStartTime == k.time) &&
      (k.SetDebugMode? ==> d.debugMode == k.enabled) &&
      (k.SetAutoEffectCycle? ==> d.autoEffectCycle == k.enabled)
  {
  }

  /** The mesh getters return what was shared, and its flag is raised. */
  lemma SetThenGetMeshes(s: DataState, m: MeshCommand)
    ensures var d := Apply(s, Meshes(m)).meshes;
      (m.SetScreen1Mesh? ==> d.screen1Mesh == m.mesh && d.hasScreen1Data) &&
      (m.SetScreen2BaseMesh? ==> d.screen2BaseMesh == m.mesh && d.hasScreen2Data) &&
      (m.SetScreen1ModelMatrix? ==> d.screen1ModelMatrix == m.matrix) &&
      (m.SetCurrentModelPath? ==> d.currentModelPath == m.path)
  {
  }

  /** The texture getters return what was shared, and position data is then
      reported exactly when the position texture is allocated. */
  lemma SetThenGetTextures(s: DataState, t: TextureCommand)
    ensures var d := Apply(s, Textures(t)).textures;
      (t.SetScreen1PositionTexture? ==>
        d.screen1PosTexture == t.pos && d.screen1DepthTexture == t.depth &&
        (PositionReady(d.hasScreen1PosData, d.screen1PosTexture) <==> t.pos.isAllocated)) &&
      (t.SetScreen2PositionTexture? ==>
        d.screen2PosTexture == t.pos && d.screen2DepthTexture == t.depth &&
        (PositionReady(d.hasScreen2PosData, d.screen2PosTexture) <==> t.pos.isAllocated))
  {
  }

  /** The five "has data" flags of the store. */
  datatype Flag = GeometryFboFlag | Screen1MeshFlag | Screen2MeshFlag | Screen1PositionFlag | Screen2PositionFlag

  function FlagOf(s: DataState, f: Flag): bool
  {
    match f
    case GeometryFboFlag => s.control.hasGeometryFboData
    case Screen1MeshFlag => s.meshes.hasScreen1Data
    case Screen2MeshFlag => s.meshes.hasScreen2Data
    case Screen1PositionFlag => s.textures.hasScreen1PosData
    case Screen2PositionFlag => s.textures.hasScreen2PosData
  }

  /** The setter that raises a flag. */
  predicate Raises(c: Command, f: Flag)
  {
    match f
    case GeometryFboFlag => c.Control? && c.control.SetGeometryFbo?
    case Screen1MeshFlag => c.Meshes? && c.meshes.SetScreen1Mesh?
    case Screen2MeshFlag => c.Meshes? && c.meshes.SetScreen2BaseMesh?
    case Screen1PositionFlag => c.Textures? && c.textures.SetScreen1PositionTexture?
    case Screen2PositionFlag => c.Textures? && c.textures.SetScreen2PositionTexture?
  }

  /** After one call a flag is up exactly when it was up before or the call
      was its setter; and no call changes the stored FBO. */
  lemma FlagStep(s: DataState, c: Command, f: Flag)
    ensures FlagOf(Apply(s, c), f) <==> FlagOf(s, f) || Raises(c, f)
    ensures Apply(s, c).control.geometryFbo == s.control.geometryFbo
  {
  }

  /** No setter lowers a flag, so once raised each stays raised; and the
      stored FBO never changes, whatever setGeometryFBO is given. */
  lemma {:induction false} FlagsStayRaised(s: DataState, cmds: seq<Command>, f: Flag)
    ensures FlagOf(s, f) ==> FlagOf(ApplyAll(s, cmds), f)
    ensures ApplyAll(s, cmds).control.geometryFbo == s.control.geometryFbo
    decreases |cmds|
  {
    if |cmds| > 0 {
      FlagsStayRaised(s, cmds[..|cmds| - 1], f);
      FlagStep(ApplyAll(s, cmds[..|cmds| - 1]), cmds[|cmds| - 1], f);
    }
  }

  /** From the initial state, a flag is raised exactly when its setter was
      among the calls. */
  lemma {:induction false} FlagsRecordCalls(cmds: seq<Command>, f: Flag)
    ensures FlagOf(ApplyAll(InitialState, cmds), f) <==> exists k :: 0 <= k < |cmds| && Raises(cmds[k], f)
    decreases |cmds|
  {
    if |cmds| > 0 {
      var front := cmds[..|cmds| - 1];
      FlagsRecordCalls(front, f);
      FlagStep(ApplyAll(InitialState, front), cmds[|cmds| - 1], f);
      assert forall k :: 0 <= k < |front| ==> front[k] == cmds[k];
    }
  }

  /** The FBO a getter returns is always the default one, and position data is
      reported exactly when a position setter was called and the texture now
      stored is allocated. */
  lemma ReadsAfterCalls(cmds: seq<Command>)
    ensures ApplyAll(InitialState, cmds).control.geometryFbo == DefaultFbo
    ensures var s := ApplyAll(InitialState, cmds);
      PositionReady(s.textures.hasScreen1PosData, s.textures.screen1PosTexture) <==>
        (exists k :: 0 <= k < |cmds| && Raises(cmds[k], Screen1PositionFlag)) && s.textures.screen1PosTexture.isAllocated
    ensures var s := ApplyAll(InitialState, cmds);
      PositionReady(s.textures.hasScreen2PosData, s.textures.screen2PosTexture) <==>
        (exists k :: 0 <= k < |cmds| && Raises(cmds[k], Screen2PositionFlag)) && s.textures.screen2PosTexture.isAllocated
  {
    FlagsStayRaised(InitialState, cmds, Screen1PositionFlag);
    FlagsRecordCalls(cmds, Screen1PositionFlag);
    FlagsRecordCalls(cmds, Screen2PositionFlag);
  }

  /** The initial store reports no FBO, no meshes and no position data, and
      holds the identity matrix. */
  lemma InitialReports()
    ensures !InitialState.control.hasGeometryFboData && !InitialState.meshes.hasScreen1Data && !InitialState.meshes.hasScreen2Data
    ensures !PositionReady(InitialState.textures.hasScreen1PosData, InitialState.textures.screen1PosTexture)
    ensures !PositionReady(InitialState.textures.hasScreen2PosData, InitialState.textures.screen2PosTexture)
    ensures |InitialState.meshes.screen1ModelMatrix.entries| == 16
    ensures forall i :: 0 <= i < 16 ==> InitialState.meshes.screen1ModelMatrix.entries[i] == if i % 5 == 0 then 1.0 else 0.0
  {
  }

  class DataManager {
    var currentState: AnimationState
    var targetState: AnimationState
    var stateTransition: real
    var transitionSpeed: real
    var currentAnimParams: AnimationParams
    var calmParams: AnimationParams
    var intenseParams: AnimationParams
    var fractureParams: FractureParams
    var dissipationParams: DissipationParams
    var lightingParams: LightingParams
    var cubeMeshConfig: CubeMeshConfig
    var flowFieldConfig: FlowFieldConfig
    var hasGeometryFboData: bool
    var geometryFbo: Fbo
    var elapsedTime: real
    var effectStartTime: real
    var debugMode: bool
    var autoEffectCycle: bool
    var screen1Mesh: StoredMesh
    var screen2BaseMesh: StoredMesh
    var hasScreen1Data: bool
    var hasScreen2Data: bool
    var screen1ModelMatrix: Matrix4
    var currentModelPath: string
    var screen1PosTexture: Texture
    var screen1DepthTexture: Texture
    var screen2PosTexture: Texture
    var screen2DepthTexture: Texture
    var hasScreen1PosData: bool
    var hasScreen2PosData: bool

    function State(): DataState
      reads this
    {
      DataState(
        AnimationData(currentState, targetState, stateTransition, transitionSpeed,
          currentAnimParams, calmParams, intenseParams),
        EffectData(fractureParams, dissipationParams, lightingParams, cubeMeshConfig, flowFieldConfig),
        ControlData(hasGeometryFboData, geometryFbo, elapsedTime, effectStartTime, debugMode, autoEffectCycle),
        MeshData(screen1Mesh, screen2BaseMesh, hasScreen1Data, hasScreen2Data, screen1ModelMatrix, currentModelPath),
        TextureData(screen1PosTexture, screen1DepthTexture, screen2PosTexture, screen2DepthTexture,
          hasScreen1PosData, hasScreen2PosData))
    }

    /** The members at their initialisers. */
    constructor ()
      ensures State() == InitialState
    {
      currentState, targetState, stateTransition, transitionSpeed := Calm, Calm, 0.0, 0.5;
      currentAnimParams := DefaultAnimationParams;
      calmParams := AnimationParams(5.0, 5.0, 5.0, 0.0, 60.0, 5);
      intenseParams := AnimationParams(60.0, 100.0, 40.0, 0.8, 200.0, 10);
      fractureParams, dissipationParams, lightingParams := DefaultFractureParams, DefaultDissipationParams, DefaultLightingParams;
      cubeMeshConfig, flowFieldConfig := DefaultCubeMeshConfig, DefaultFlowFieldConfig;
      hasGeometryFboData, geometryFbo := false, DefaultFbo;
      elapsedTime, effectStartTime := 0.0, 0.0;
      debugMode, autoEffectCycle := false, false;
      screen1Mesh, screen2BaseMesh, hasScreen1Data, hasScreen2Data := EmptyMesh(), EmptyMesh(), false, false;
      screen1ModelMatrix, currentModelPath := IdentityMatrix, "";
      screen1PosTexture, screen1DepthTexture, screen2PosTexture, screen2DepthTexture := NoTexture, NoTexture, NoTexture, NoTexture;
      hasScreen1PosData, hasScreen2PosData := false, false;
    }

    method SetAnimationState(state: AnimationState)
      modifies this
      ensures State() == Apply(old(State()), Animation(AnimationCommand.SetAnimationState(state)))
      ensures GetAnimationState() == state
    {
      currentState := state;
    }

    function GetAnimationState(): AnimationState reads this { currentState }

    method SetTargetState(target: AnimationState)
      modifies this
      ensures State() == Apply(old(State()), Animation(AnimationCommand.SetTargetState(target)))
      ensures GetTargetState() == target
    {
      targetState := target;
    }

    function GetTargetState(): AnimationState reads this { targetState }

    method SetStateTransition(transition: real)
      modifies this
      ensures State() == Apply(old(State()), Animation(AnimationCommand.SetStateTransition(transition)))
      ensures GetStateTransition() == transition
    {
      stateTransition := transition;
    }

    function GetStateTransition(): real reads this { stateTransition }

    method SetAnimationParams(params: AnimationParams)
      modifies this
      ensures State() == Apply(old(State()), Animation(AnimationCommand.SetAnimationParams(params)))
      ensures GetAnimationParams() == params
    {
      currentAnimParams := params;
    }

    function GetAnimationParams(): AnimationParams reads this { currentAnimParams }

    method SetCalmParams(params: AnimationParams)
      modifies this
      ensures State() == Apply(old(State()), Animation(AnimationCommand.SetCalmParams(params)))
      ensures GetCalmParams() == params
    {
      calmParams := params;
    }

    function GetCalmParams(): AnimationParams reads this { calmParams }

    method SetIntenseParams(params: AnimationParams)
      modifies this
      ensures State() == Apply(old(State()), Animation(AnimationCommand.SetIntenseParams(params)))
      ensures GetIntenseParams() == params
    {
      intenseParams := params;
    }

    function GetIntenseParams(): AnimationParams reads this { intenseParams }

    method SetFractureParams(params: FractureParams)
      modifies this
      ensures State() == Apply(old(State()), Effects(EffectCommand.SetFractureParams(params)))
      ensures GetFractureParams() == params
    {
      fractureParams := params;
    }

    function GetFractureParams(): FractureParams reads this { fractureParams }

    method SetDissipationParams(params: DissipationParams)
      modifies this
      ensures State() == Apply(old(State()), Effects(EffectCommand.SetDissipationParams(params)))
      ensures GetDissipationParams() == params
    {
      dissipationParams := params;
    }

    function GetDissipationParams(): DissipationParams reads this { dissipationParams }

    method SetLightingParams(params: LightingParams)
      modifies this
      ensures State() == Apply(old(State()), Effects(EffectCommand.SetLightingParams(params)))
      ensures GetLightingParams() == params
    {
      lightingParams := params;
    }

    function GetLightingParams(): LightingParams reads this { lightingParams }

    method SetCubeMeshConfig(config: CubeMeshConfig)
      modifies this
      ensures State() == Apply(old(State()), Effects(EffectCommand.SetCubeMeshConfig(config)))
      ensures GetCubeMeshConfig() == config
    {
      cubeMeshConfig := config;
    }

    function GetCubeMeshConfig(): CubeMeshConfig reads this { cubeMeshConfig }

    method SetFlowFieldConfig(config: FlowFieldConfig)
      modifies this
      ensures State() == Apply(old(State()), Effects(EffectCommand.SetFlowFieldConfig(config)))
      ensures GetFlowFieldConfig() == config
    {
      flowFieldConfig := config;
    }

    function GetFlowFieldConfig(): FlowFieldConfig reads this { flowFieldConfig }

    /** Only records that an FBO exists; the argument is not kept. */
    method SetGeometryFbo(fbo: Fbo)
      modifies this
      ensures State() == Apply(old(State()), Control(ControlCommand.SetGeometryFbo(fbo)))
      ensures HasGeometryFbo() && GetGeometryFbo() == old(GetGeometryFbo())
    {
      hasGeometryFboData := true;
    }

    function HasGeometryFbo(): bool reads this { hasGeometryFboData }

    function GetGeometryFbo(): Fbo reads this { geometryFbo }

    method SetElapsedTime(time: real)
      modifies this
      ensures State() == Apply(old(State()), Control(ControlCommand.SetElapsedTime(time)))
      ensures GetElapsedTime() == time
    {
      elapsedTime := time;
    }

    function GetElapsedTime(): real reads this { elapsedTime }

    method SetTransitionSpeed(speed: real)
      modifies this
      ensures State() == Apply(old(State()), Animation(AnimationCommand.SetTransitionSpeed(speed)))
      ensures GetTransitionSpeed() == speed
    {
      transitionSpeed := speed;
    }

    function GetTransitionSpeed(): real reads this { transitionSpeed }

    method SetDebugMode(enabled: bool)
      modifies this
      ensures State() == Apply(old(State()), Control(ControlCommand.SetDebugMode(enabled)))
      ensures IsDebugMode() == enabled
    {
      debugMode := enabled;
    }

    function IsDebugMode(): bool reads this { debugMode }

    method SetAutoEffectCycle(enabled: bool)
      modifies this
      ensures State() == Apply(old(State()), Control(ControlCommand.SetAutoEffectCycle(enabled)))
      ensures IsAutoEffectCycle() == enabled
    {
      autoEffectCycle := enabled;
    }

    function IsAutoEffectCycle(): bool reads this { autoEffectCycle }

    method SetEffectStartTime(time: real)
      modifies this
      ensures State() == Apply(old(State()), Control(ControlCommand.SetEffectStartTime(time)))
      ensures GetEffectStartTime() == time
    {
      effectStartTime := time;
    }

    function GetEffectStartTime(): real reads this { effectStartTime }

    method SetScreen1Mesh(mesh: StoredMesh)
      modifies this
      ensures State() == Apply(old(State()), Meshes(MeshCommand.SetScreen1Mesh(mesh)))
      ensures GetScreen1Mesh() == mesh && HasScreen1MeshData()
    {
      screen1Mesh := mesh;
      hasScreen1Data := true;
    }

    function GetScreen1Mesh(): StoredMesh reads this { screen1Mesh }

    function HasScreen1MeshData(): bool reads this { hasScreen1Data }

    method SetScreen2BaseMesh(mesh: StoredMesh)
      modifies this
      ensures State() == Apply(old(State()), Meshes(MeshCommand.SetScreen2BaseMesh(mesh)))
      ensures GetScreen2BaseMesh() == mesh && HasScreen2MeshData()
    {
      screen2BaseMesh := mesh;
      hasScreen2Data := true;
    }

    function GetScreen2BaseMesh(): StoredMesh reads this { screen2BaseMesh }

    function HasScreen2MeshData(): bool reads this { hasScreen2Data }

    method SetScreen1ModelMatrix(matrix: Matrix4)
      modifies this
      ensures State() == Apply(old(State()), Meshes(MeshCommand.SetScreen1ModelMatrix(matrix)))
      ensures GetScreen1ModelMatrix() == matrix
    {
      screen1ModelMatrix := matrix;
    }

    function GetScreen1ModelMatrix(): Matrix4 reads this { screen1ModelMatrix }

    method SetCurrentModelPath(path: string)
      modifies this
      ensures State() == Apply(old(State()), Meshes(MeshCommand.SetCurrentModelPath(path)))
      ensures GetCurrentModelPath() == path
    {
      currentModelPath := path;
    }

    function GetCurrentModelPath(): string reads this { currentModelPath }

    method SetScreen1PositionTexture(posTexture: Texture, depthTexture: Texture)
      modifies this
      ensures State() == Apply(old(State()), Textures(TextureCommand.SetScreen1PositionTexture(posTexture, depthTexture)))
      ensures GetScreen1PositionTexture() == posTexture && GetScreen1DepthTexture() == depthTexture &&
        (HasScreen1PositionData() <==> posTexture.isAllocated)
    {
      screen1PosTexture := posTexture;
      screen1DepthTexture := depthTexture;
      hasScreen1PosData := true;
    }

    method SetScreen2PositionTexture(posTexture: Texture, depthTexture: Texture)
      modifies this
      ensures State() == Apply(old(State()), Textures(TextureCommand.SetScreen2PositionTexture(posTexture, depthTexture)))
      ensures GetScreen2PositionTexture() == posTexture && GetScreen2DepthTexture() == depthTexture &&
        (HasScreen2PositionData() <==> posTexture.isAllocated)
    {
      screen2PosTexture := posTexture;
      screen2DepthTexture := depthTexture;
      hasScreen2PosData := true;
    }

    function HasScreen1PositionData(): bool reads this { PositionReady(hasScreen1PosData, screen1PosTexture) }

    function HasScreen2PositionData(): bool reads this { PositionReady(hasScreen2PosData, screen2PosTexture) }

    function GetScreen1PositionTexture(): Texture reads this { screen1PosTexture }

    function GetScreen1DepthTexture(): Texture reads this { screen1DepthTexture }

    function GetScreen2PositionTexture(): Texture reads this { screen2PosTexture }

    function GetScreen2DepthTexture(): Texture reads this { screen2DepthTexture }
  }
}

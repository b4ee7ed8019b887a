/** The game-object record of makeguns. The source keeps the payload in an
    untagged union beside a separate type field; here the payload is a sum
    type and the type is read off it, so the two cannot disagree. */
module GameObjects {
  import Timers

  datatype PlayerState = Idle | Running | Jumping

  datatype PlayerData = PlayerData(state: PlayerState)
  datatype LevelData = LevelData
  datatype EnemyData = EnemyData

  /** The payload: exactly one of the three kinds of data. */
  datatype ObjectData =
    | PlayerObject(player: PlayerData)
    | LevelObject(level: LevelData)
    | EnemyObject(enemy: EnemyData)

  datatype ObjectType = Player | Level | Enemy

  /** The type tag that goes with a payload. */
  function TypeOf(data: ObjectData): (t: ObjectType)
    ensures t == Player <==> data.PlayerObject?
    ensures t == Level <==> data.LevelObject?
    ensures t == Enemy <==> data.EnemyObject?
  {
    match data
    case PlayerObject(_) => Player
    case LevelObject(_) => Level
    case EnemyObject(_) => Enemy
  }

  datatype Vec2 = Vec2(x: real, y: real)

  const Zero: Vec2 := Vec2(0.0, 0.0)

  /** An animation: its timer and its number of frames. How it steps and
      which frame it shows is not part of this model. */
  datatype Animation = Animation(timer: Timers.TimerState, frameCount: int)

  /** A texture is a handle issued by the renderer; `None` is the null pointer. */
  type TextureHandle = nat
  datatype Option<T> = None | Some(value: T)

  datatype GameObject = GameObject(
    data: ObjectData,
    position: Vec2,
    velocity: Vec2,
    acceleration: Vec2,
    direction: real,
    animations: seq<Animation>,
    currentAnimation: int,
    texture: Option<TextureHandle>)
  {
    function Type(): ObjectType
    {
      TypeOf(data)
    }

    /** `currentAnimation` names an animation of the list; -1 names none. */
    predicate HasActiveAnimation()
    {
      0 <= currentAnimation < |animations|
    }
  }

  /** `PlayerData()`: a player starts idle. */
  function NewPlayerData(): (p: PlayerData)
    ensures p.state == Idle
  {
    PlayerData(Idle)
  }

  /** `GameObject()`: a level object at rest at the origin, facing right,
      with no animation and no texture. */
  function NewGameObject(): (g: GameObject)
    ensures g.Type() == Level && g.data == LevelObject(LevelData)
    ensures g.direction == 1.0
    ensures g.position == g.velocity == g.acceleration == Zero
    ensures g.currentAnimation == -1 && !g.HasActiveAnimation()
    ensures g.animations == [] && g.texture == None
  {
    GameObject(LevelObject(LevelData), Zero, Zero, Zero, 1.0, [], -1, None)
  }
}

/** Room geometry and templates of include/DungeonRoom.h; floats become reals. */
module DungeonRoom {
  import opened Common

  type RoomId = UInt32
  type EnemySpawnId = UInt32
  type EnemyTemplateId = UInt32
  type ObstacleId = UInt32
  type DungeonEntityId = nat

  datatype Position = Position(x: real, y: real, z: real)

  datatype CollisionBox = CollisionBox(minimum: Position, maximum: Position)

  datatype PortalTemplate = PortalTemplate(
    triggerArea: CollisionBox,
    targetRoomId: RoomId,
    targetPosition: Position,
    requiresRoomClear: bool)

  datatype ObstacleTemplate = ObstacleTemplate(
    id: ObstacleId,
    collision: CollisionBox,
    destructible: bool,
    maxHp: UInt32)

  datatype EnemySpawnTemplate = EnemySpawnTemplate(
    id: EnemySpawnId,
    enemyTemplateId: EnemyTemplateId,
    position: Position,
    wave: UInt32)

  datatype RoomTemplate = RoomTemplate(
    id: RoomId,
    width: real,
    depth: real,
    playerSpawn: Position,
    portals: seq<PortalTemplate>,
    obstacles: seq<ObstacleTemplate>,
    enemySpawns: seq<EnemySpawnTemplate>)

  /** The enemy catalog, as far as rooms use it: template id to maximum hit points. */
  type EnemyCatalog = map<EnemyTemplateId, UInt32>

  predicate IsInsideRoom(room: RoomTemplate, position: Position) {
    0.0 <= position.x <= room.width && 0.0 <= position.y <= room.depth
  }

  predicate IsInsideCollisionBox(box: CollisionBox, position: Position) {
    && box.minimum.x <= position.x <= box.maximum.x
    && box.minimum.y <= position.y <= box.maximum.y
    && box.minimum.z <= position.z <= box.maximum.z
  }

  /** What the dungeon catalog checks of a room's spawns before it accepts a template. */
  ghost predicate SpawnsAccepted(spawns: seq<EnemySpawnTemplate>, catalog: EnemyCatalog) {
    && (forall i :: 0 <= i < |spawns| ==>
      && spawns[i].wave > 0
      && spawns[i].enemyTemplateId in catalog
      && catalog[spawns[i].enemyTemplateId] > 0)
    && (forall i, j :: 0 <= i < j < |spawns| ==> spawns[i].id != spawns[j].id)
  }
}

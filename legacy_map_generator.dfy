/** The tile-based camera offset of the older map module: it centres on the player's tile rather than its pixel. */
module LegacyMapGenerator {
  import opened Geometry
  import Camera

  /** `calculate_camera_offset` from the map tile the player stands on. */
  function CalculateCameraOffset(mapPosition: Cell, mapWidth: int, mapHeight: int, tileSize: int, screenWidth: nat, screenHeight: nat): (r: Cell)
    ensures r.0 >= 0 && r.1 >= 0
    ensures mapWidth * tileSize >= screenWidth ==> r.0 <= mapWidth * tileSize - screenWidth
    ensures mapHeight * tileSize >= screenHeight ==> r.1 <= mapHeight * tileSize - screenHeight
  {
    var offsetX := mapPosition.0 * tileSize - screenWidth / 2;
    var offsetY := mapPosition.1 * tileSize - screenHeight / 2;
    (Camera.ClampOffset(offsetX, mapWidth * tileSize - screenWidth), Camera.ClampOffset(offsetY, mapHeight * tileSize - screenHeight))
  }

  /** When the player's rect sits exactly on its tile, the tile camera and the pixel camera agree. */
  lemma AgreesWhenAligned(player: Rect, mapPosition: Cell, mapWidth: int, mapHeight: int, tileSize: int, screenWidth: nat, screenHeight: nat)
    requires player.x == mapPosition.0 * tileSize && player.y == mapPosition.1 * tileSize
    ensures CalculateCameraOffset(mapPosition, mapWidth, mapHeight, tileSize, screenWidth, screenHeight)
         == Camera.CalculateCameraOffset(player, mapWidth, mapHeight, tileSize, screenWidth, screenHeight)
  {
  }
}

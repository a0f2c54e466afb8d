/** The older copy of the camera offset, computed from the player's exact pixel position. */
module LegacyCamera {
  import opened Geometry
  import Camera

  /** `calculate_camera_offset` of the older copy: the same centring and clamping, written inline. */
  function CalculateCameraOffset(player: Rect, mapWidth: int, mapHeight: int, tileSize: int, screenWidth: nat, screenHeight: nat): (r: Cell)
    ensures r.0 >= 0 && r.1 >= 0
    ensures mapWidth * tileSize - screenWidth >= 0 ==> r.0 <= mapWidth * tileSize - screenWidth
    ensures mapHeight * tileSize - screenHeight >= 0 ==> r.1 <= mapHeight * tileSize - screenHeight
  {
    var exactX := player.x;
    var exactY := player.y;
    var offsetX := exactX - screenWidth / 2;
    var offsetY := exactY - screenHeight / 2;
    (Camera.ClampOffset(offsetX, mapWidth * tileSize - screenWidth), Camera.ClampOffset(offsetY, mapHeight * tileSize - screenHeight))
  }

  /** Both copies compute the same offset on every input. */
  lemma AgreesWithCamera(player: Rect, mapWidth: int, mapHeight: int, tileSize: int, screenWidth: nat, screenHeight: nat)
    ensures CalculateCameraOffset(player, mapWidth, mapHeight, tileSize, screenWidth, screenHeight)
         == Camera.CalculateCameraOffset(player, mapWidth, mapHeight, tileSize, screenWidth, screenHeight)
  {
  }

  /** The x offset depends only on the x inputs and the y offset only on the y inputs. */
  lemma AxesIndependent(p1: Rect, p2: Rect, mapWidth: int, mapHeight: int, mapWidth2: int, mapHeight2: int,
                        tileSize: int, screenWidth: nat, screenHeight: nat, screenWidth2: nat, screenHeight2: nat)
    ensures p1.x == p2.x ==>
      CalculateCameraOffset(p1, mapWidth, mapHeight, tileSize, screenWidth, screenHeight).0
      == CalculateCameraOffset(p2, mapWidth, mapHeight2, tileSize, screenWidth, screenHeight2).0
    ensures p1.y == p2.y ==>
      CalculateCameraOffset(p1, mapWidth, mapHeight, tileSize, screenWidth, screenHeight).1
      == CalculateCameraOffset(p2, mapWidth2, mapHeight, tileSize, screenWidth2, screenHeight).1
  {
  }
}

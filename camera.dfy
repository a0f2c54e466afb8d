/**
 * The camera of the game screen: the top-left pixel of the visible window,
 * centred on the player and clamped so that the window never leaves the map.
 */
module Camera {
  import opened Geometry

  /** `max(0, min(v, hi))`: the offset pulled back into `[0, hi]`, or 0 when the map is narrower than the screen. */
  function ClampOffset(v: int, hi: int): (r: int)
    ensures r >= 0
    ensures hi >= 0 ==> r <= hi
    ensures 0 <= v <= hi ==> r == v
    ensures hi >= 0 && v < 0 ==> r == 0
    ensures hi >= 0 && v > hi ==> r == hi
    ensures hi < 0 ==> r == 0
  {
    var m := if v < hi then v else hi;
    if m < 0 then 0 else m
  }

  /** A clamped offset is already in range, so clamping again changes nothing. */
  lemma ClampIdempotent(v: int, hi: int)
    ensures ClampOffset(ClampOffset(v, hi), hi) == ClampOffset(v, hi)
  {
  }

  /**
   * `calculate_camera_offset`: the player rect's corner minus half the
   * screen, clamped per axis to `[0, map_size * tile_size - screen_size]`.
   */
  function CalculateCameraOffset(player: Rect, mapWidth: int, mapHeight: int, tileSize: int, screenWidth: nat, screenHeight: nat): (r: Cell)
    ensures r.0 >= 0 && r.1 >= 0
    ensures mapWidth * tileSize >= screenWidth ==> r.0 <= mapWidth * tileSize - screenWidth
    ensures mapHeight * tileSize >= screenHeight ==> r.1 <= mapHeight * tileSize - screenHeight
    ensures mapWidth * tileSize < screenWidth ==> r.0 == 0
    ensures mapHeight * tileSize < screenHeight ==> r.1 == 0
    ensures 0 <= player.x - screenWidth / 2 <= mapWidth * tileSize - screenWidth ==> r.0 == player.x - screenWidth / 2
    ensures 0 <= player.y - screenHeight / 2 <= mapHeight * tileSize - screenHeight ==> r.1 == player.y - screenHeight / 2
  {
    var offsetX := player.x - screenWidth / 2;
    var offsetY := player.y - screenHeight / 2;
    var maxX := mapWidth * tileSize - screenWidth;
    var maxY := mapHeight * tileSize - screenHeight;
    (ClampOffset(offsetX, maxX), ClampOffset(offsetY, maxY))
  }
}

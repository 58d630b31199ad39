/**
 The three kinds of game object: lasers, enemies and the player's ship.
 Positions of enemies and the ship are in grid cells; a cell is 20 pixels.
 Lasers live in pixels from the moment they are built.
 */
module Entities {
  import opened PyLists
  import opened Geometry

  /** Pixels per grid cell. */
  const CellSize: int := 20
  /** Playfield width and height in cells (`windowCol`, `windowRow`). */
  const Columns: int := 36
  const Rows: int := 38

  // ---------------------------------------------------------------- lasers

  /** A laser: its 10x20 pixel rectangle and its vertical velocity in pixels
      per frame. The colour is only drawn and is not modelled. */
  datatype Laser = Laser(rect: Rect, vel: int)

  /** `Laser(color, startingCoords, direction, shooterClass)`: the sign of
      `direction` alone fixes the velocity, 5 pixels per frame. */
  function NewLaser(px: int, py: int, direction: int): (l: Laser)
    ensures l.rect == Rect(px, py, 10, 20)
    ensures l.vel == 5 || l.vel == -5
    ensures l.vel > 0 <==> direction > 0
  {
    Laser(Rect(px, py, 10, 20), if direction > 0 then 5 else -5)
  }

  /** `Laser.move`: one frame of vertical travel. */
  function Move(l: Laser): Laser
  {
    l.(rect := l.rect.(y := l.rect.y + l.vel))
  }

  /** After `n` frames a laser has travelled `n` times its velocity
      vertically and nothing else about it has changed. */
  lemma {:induction false} MoveTrajectory(l: Laser, n: nat)
    ensures Iterate(Move, l, n) == l.(rect := l.rect.(y := l.rect.y + n * l.vel))
    decreases n
  {
    if n > 0 {
      MoveTrajectory(Move(l), n - 1);
      assert l.rect.y + l.vel + (n - 1) * l.vel == l.rect.y + n * l.vel;
    }
  }

  // --------------------------------------------------------------- enemies

  /** An enemy: grid column `x`, grid row `y100` in hundredths of a row, and
      `speed` in hundredths of a row per frame. The game keeps these as
      floats; hundredths make every reachable value exact. */
  datatype Enemy = Enemy(x: int, y100: int, speed: int)

  /** The speeds an enemy may draw: 0.1, 0.12, 0.14, 0.15, 0.16 rows per frame. */
  const Speeds: seq<int> := [10, 12, 14, 15, 16]

  /** Spawn columns: `range(5, windowCol - 5, 5)`. */
  function SpawnColumns(): seq<int>
  {
    Range(5, Columns - 5, 5)
  }

  /** Spawn rows, above the visible area: `range(-8, -4, 1)`. */
  function SpawnRows(): seq<int>
  {
    Range(-8, -4, 1)
  }

  lemma SpawnTables()
    ensures SpawnColumns() == [5, 10, 15, 20, 25, 30]
    ensures SpawnRows() == [-8, -7, -6, -5]
  {
    var c := SpawnColumns();
    assert |c| >= 6;
    assert c[|c| - 1] == 5 + (|c| - 1) * 5 < 31;
  }

  /** The three `random.choice` outcomes of `Enemy.__init__`, as positions in
      the column, row and speed tables. */
  datatype SpawnPick = SpawnPick(column: nat, row: nat, speed: nat)

  predicate ValidPick(p: SpawnPick)
  {
    p.column < |SpawnColumns()| && p.row < |SpawnRows()| && p.speed < |Speeds|
  }

  /** Where and how fast a fresh enemy can be. */
  predicate Spawnable(e: Enemy)
  {
    && 5 <= e.x <= 30 && e.x % 5 == 0
    && -800 <= e.y100 <= -500 && e.y100 % 100 == 0
    && e.speed in Speeds
  }

  /** What stays true of an enemy for its whole life. */
  predicate ValidEnemy(e: Enemy)
  {
    5 <= e.x <= 30 && e.x % 5 == 0 && e.speed in Speeds
  }

  /** `Enemy.__init__` for the given choices. */
  function NewEnemy(p: SpawnPick): (e: Enemy)
    requires ValidPick(p)
    ensures Spawnable(e)
  {
    SpawnTables();
    Enemy(SpawnColumns()[p.column], 100 * SpawnRows()[p.row], Speeds[p.speed])
  }

  /** Every spawnable enemy is what some choice produces. */
  lemma SpawnPickFor(e: Enemy) returns (p: SpawnPick)
    requires Spawnable(e)
    ensures ValidPick(p) && NewEnemy(p) == e
  {
    SpawnTables();
    var si :| 0 <= si < |Speeds| && Speeds[si] == e.speed;
    p := SpawnPick(e.x / 5 - 1, e.y100 / 100 + 8, si);
  }

  /** `Enemy.auto_move`: one frame of downward drift. */
  function Drift(e: Enemy): Enemy
  {
    e.(y100 := e.y100 + e.speed)
  }

  /** After `n` frames an enemy has descended `n` times its speed, in the
      same column, and keeps what made it valid. */
  lemma {:induction false} DriftTrajectory(e: Enemy, n: nat)
    ensures Iterate(Drift, e, n) == e.(y100 := e.y100 + n * e.speed)
    ensures ValidEnemy(e) ==> ValidEnemy(Iterate(Drift, e, n))
    decreases n
  {
    if n > 0 {
      DriftTrajectory(Drift(e), n - 1);
      assert e.y100 + e.speed + (n - 1) * e.speed == e.y100 + n * e.speed;
    }
  }

  /** Pixel top-left of an enemy's sprite: `coord * 20` made integral. */
  function EnemyTopLeft(e: Enemy): (int, int)
  {
    (CellSize * e.x, TruncDiv(CellSize * e.y100, 100))
  }

  // ------------------------------------------------------------- hitboxes

  /** `image.get_rect(topleft=(px, py))` of a sprite scaled to 100x100. */
  function SpriteRect(px: int, py: int): Rect
  {
    Rect(px, py, 100, 100)
  }

  /** `Enemy.get_solid_rect` for a sprite at (px, py): the sequence of pygame
      attribute updates, which leaves a 70x30 box 15 pixels in from the
      sprite's top-left corner. */
  function EnemyHitbox(px: int, py: int): (r: Rect)
    ensures r == Rect(px + 15, py + 15, 70, 30)
  {
    var r0 := SpriteRect(px, py);
    var r1 := r0.(x := r0.x + 15);
    var r2 := r1.(y := r1.y + 70);
    var r3 := WithCenterY(r2, CenterY(r2) - 55);
    var r4 := r3.(w := r3.w - 30);
    r4.(h := r4.h - 70)
  }

  function EnemySolidRect(e: Enemy): Rect
  {
    EnemyHitbox(EnemyTopLeft(e).0, EnemyTopLeft(e).1)
  }

  /** `Enemy.shoot`: a laser from the sprite's top-left, heading down. */
  function EnemyShoot(e: Enemy): (l: Laser)
    ensures l.vel == 5
    ensures l.rect.x == CellSize * e.x
  {
    NewLaser(EnemyTopLeft(e).0, EnemyTopLeft(e).1, 1)
  }

  // ------------------------------------------------------------------ ship

  /** The player's ship: grid position and hit points. */
  datatype Ship = Ship(x: int, y: int, hp: int)

  /** The ship as `Ship.__init__` creates it. */
  const StartShip: Ship := Ship(15, 30, 100)

  /** `Ship.move_left`: two cells left, only while `x - 1 > 0`. */
  function MoveLeft(s: Ship): (r: Ship)
    ensures r.y == s.y && r.hp == s.hp
    ensures r.x < s.x <==> s.x > 1
    ensures r.x == s.x || r.x == s.x - 2
  {
    if s.x - 1 > 0 then s.(x := s.x - 2) else s
  }

  /** `Ship.move_right`: two cells right, only while `x + 6 < windowCol`. */
  function MoveRight(s: Ship): (r: Ship)
    ensures r.y == s.y && r.hp == s.hp
    ensures r.x > s.x <==> s.x < 30
    ensures r.x == s.x || r.x == s.x + 2
  {
    if s.x + 6 < Columns then s.(x := s.x + 2) else s
  }

  /** From any column in 0..31 both moves stay in 0..31 (the ship starts in
      column 15), and at the left edge a left move does nothing. */
  lemma ShipStaysOnScreen(s: Ship)
    requires 0 <= s.x <= 31
    ensures 0 <= MoveLeft(s).x <= 31 && 0 <= MoveRight(s).x <= 31
    ensures s.x <= 1 ==> MoveLeft(s) == s
    ensures s.x >= 30 ==> MoveRight(s) == s
  {
  }

  /** `Ship.shoot`: a laser from `(coord + (2.2, -0.5)) * 20`, heading up. */
  function ShipShoot(s: Ship): (l: Laser)
    ensures l.vel == -5
    ensures l.rect.x as real == (s.x as real + 2.2) * CellSize as real
    ensures l.rect.y as real == (s.y as real - 0.5) * CellSize as real
    ensures l.rect.w == 10 && l.rect.h == 20
  {
    NewLaser(CellSize * s.x + 44, CellSize * s.y - 10, -1)
  }

  /** `Ship.get_solid_rect` for a sprite at (px, py): the lower band of the
      sprite, 100x20, starting 50 pixels down. */
  function ShipHitbox(px: int, py: int): (r: Rect)
    ensures r == Rect(px, py + 50, 100, 20)
  {
    var r0 := SpriteRect(px, py);
    var r1 := WithCenterY(r0, CenterY(r0) + 50);
    r1.(h := r1.h - 80)
  }

  function ShipSolidRect(s: Ship): Rect
  {
    ShipHitbox(CellSize * s.x, CellSize * s.y)
  }
}

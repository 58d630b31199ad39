/**
 Concrete situations that pin down how the game behaves as written,
 including the three places where it does something other than what a
 reader of the rules might expect: the element after a removal is skipped,
 the laser cull never fires, and a game ended mid-frame still runs the rest
 of that frame.
 */
module Scenarios {
  import opened PyLists
  import opened Geometry
  import opened Entities
  import opened Session

  /** A game in play with the ship where it starts. */
  function Playing(hp: int, enemies: seq<Enemy>, shipLasers: seq<Laser>): Game
  {
    Game(Play, 0, StartShip.(hp := hp), enemies, shipLasers, [])
  }

  /** An enemy whose hitbox overlaps the hitbox of a ship in column 15,
      row 30: sprite at pixel (300, 620), hitbox (315, 635, 70, 30) against
      the ship's (300, 650, 100, 20). */
  function OnShip(speed: int): Enemy
  {
    Enemy(15, 3100, speed)
  }

  /** Two enemies on the ship in one frame: the first is removed, the second
      slides into its slot and is skipped, so it survives and only 10 hit
      points are lost (not 20). */
  lemma AdjacentCrashSkipsSecond()
    ensures PlayerEnemyCollisions(Playing(100, [OnShip(10), OnShip(12)], [])).enemies == [OnShip(12)]
    ensures PlayerEnemyCollisions(Playing(100, [OnShip(10), OnShip(12)], [])).ship.hp == 90
  {
    var g := Playing(100, [OnShip(10), OnShip(12)], []);
    var hb := ShipSolidRect(g.ship);
    assert Overlap(EnemySolidRect(OnShip(10)), hb);
    var sc := Scan(g.enemies, false, g, CrashStep);
    assert g.enemies[1..] == [OnShip(12)];
    assert sc.items == [OnShip(12)];
  }

  /** Two enemies on the ship with another enemy between them: both are
      visited, both go, and 20 hit points are lost. */
  lemma SeparatedCrashesBothGo()
    ensures PlayerEnemyCollisions(Playing(100, [OnShip(10), Enemy(5, 100, 10), OnShip(12)], [])).enemies
         == [Enemy(5, 100, 10)]
    ensures PlayerEnemyCollisions(Playing(100, [OnShip(10), Enemy(5, 100, 10), OnShip(12)], [])).ship.hp == 80
  {
    var g := Playing(100, [OnShip(10), Enemy(5, 100, 10), OnShip(12)], []);
    var hb := ShipSolidRect(g.ship);
    assert Overlap(EnemySolidRect(OnShip(10)), hb);
    assert !Overlap(EnemySolidRect(Enemy(5, 100, 10)), hb);
    var sc := Scan(g.enemies, false, g, CrashStep);
    assert g.enemies[1..] == [Enemy(5, 100, 10), OnShip(12)];
    assert g.enemies[1..][1..] == [OnShip(12)];
    assert sc.items == [Enemy(5, 100, 10)];
  }

  /** Three enemies on the ship: the first and third are removed, the
      second survives, 20 hit points are lost. */
  lemma AlternateCrashes()
    ensures PlayerEnemyCollisions(Playing(100, [OnShip(10), OnShip(12), OnShip(14)], [])).enemies == [OnShip(12)]
    ensures PlayerEnemyCollisions(Playing(100, [OnShip(10), OnShip(12), OnShip(14)], [])).ship.hp == 80
  {
    var g := Playing(100, [OnShip(10), OnShip(12), OnShip(14)], []);
    var hb := ShipSolidRect(g.ship);
    assert Overlap(EnemySolidRect(OnShip(10)), hb);
    assert Overlap(EnemySolidRect(OnShip(14)), hb);
    var sc := Scan(g.enemies, false, g, CrashStep);
    assert g.enemies[1..] == [OnShip(12), OnShip(14)];
    assert g.enemies[1..][1..] == [OnShip(14)];
    assert sc.items == [OnShip(12)];
  }

  /** A laser overlapping the hitbox of the only enemy: both go, 10 points. */
  lemma LaserHitsEnemy()
    ensures LaserEnemyCollisions(Playing(100, [OnShip(10)], [Laser(Rect(320, 640, 10, 20), -5)])).enemies == []
    ensures LaserEnemyCollisions(Playing(100, [OnShip(10)], [Laser(Rect(320, 640, 10, 20), -5)])).shipLasers == []
    ensures LaserEnemyCollisions(Playing(100, [OnShip(10)], [Laser(Rect(320, 640, 10, 20), -5)])).score == 10
  {
    var g := Playing(100, [OnShip(10)], [Laser(Rect(320, 640, 10, 20), -5)]);
    assert FirstHit(g.enemies, g.shipLasers[0].rect) == Some(0);
  }

  /** An enemy that drifts past row 43 is removed and costs 5 hit points. */
  lemma EnemyLeavesAtBottom()
    ensures UpdateWorld(Playing(100, [Enemy(5, 4295, 10)], [])).enemies == []
    ensures UpdateWorld(Playing(100, [Enemy(5, 4295, 10)], [])).ship.hp == 95
    ensures UpdateWorld(Playing(100, [Enemy(5, 4295, 10)], [])).mode == Play
  {
    var g := Playing(100, [Enemy(5, 4295, 10)], []);
    assert Drift(g.enemies[0]).y100 > BottomY100;
    var sc := Scan(g.enemies, false, g, FallStep);
    assert sc.items == [];
  }

  /** A laser far above the window is still moved and kept: the cull test
      `height < y < 0` holds for no `y`. */
  lemma LaserAboveWindowKept()
    ensures UpdateWorld(Playing(100, [], [Laser(Rect(344, -1000, 10, 20), -5)])).shipLasers
         == [Laser(Rect(344, -1005, 10, 20), -5)]
  {
    var g := Playing(100, [], [Laser(Rect(344, -1000, 10, 20), -5)]);
    var moved := MapAll(Move, g.shipLasers);
    assert |moved| == 1 && moved[0] == Move(g.shipLasers[0]);
    assert moved == [Laser(Rect(344, -1005, 10, 20), -5)];
  }

  /** Damage that lands exactly on 0 keeps the game going; one more point
      ends it. */
  lemma LandingOnZeroKeepsPlaying()
    ensures DecreaseHp(Playing(10, [], []), 10).mode == Play
    ensures DecreaseHp(Playing(10, [], []), 10).ship.hp == 0
    ensures DecreaseHp(Playing(5, [], []), 10).mode == Menu
    ensures DecreaseHp(Playing(5, [], []), 10).ship.hp == 0
  {
  }

  /** RETURN in the menu resets hit points, score and enemies but keeps the
      lasers already in flight and the ship where it was. */
  lemma ResetKeepsLasers()
    ensures HandleKey(Game(Menu, 70, Ship(3, 30, 0), [OnShip(10)], [Laser(Rect(104, 300, 10, 20), -5)], []), Return)
         == Game(Play, 0, Ship(3, 30, 100), [], [Laser(Rect(104, 300, 10, 20), -5)], [])
  {
  }

  /** A frame in which the world update ends the game (3 hit points, an
      enemy leaving at the bottom) still runs the laser pass: the enemy behind
      the fallen one was skipped by the world update, so it has not moved, and
      the ship's laser still destroys it and scores. */
  lemma MidFrameGameOver(d: Draw)
    requires ValidDraw(d)
    ensures Update(Game(Play, 0, Ship(15, 30, 3), [Enemy(5, 4295, 10), Enemy(15, 1000, 10)],
                        [Laser(Rect(320, 230, 10, 20), -5)], []), d)
         == Game(Menu, 10, Ship(15, 30, 0), [], [], [])
  {
    var g := Game(Play, 0, Ship(15, 30, 3), [Enemy(5, 4295, 10), Enemy(15, 1000, 10)],
                  [Laser(Rect(320, 230, 10, 20), -5)], []);
    assert GenerateWave(g, d) == g;
    GameOverInWorldUpdate();
    ShotAfterGameOver();
    var done := Game(Menu, 10, Ship(15, 30, 0), [], [], []);
    assert PlayerEnemyCollisions(done).enemies == [];
  }

  /** The world update of that frame: the first enemy falls out and ends the
      game, the second is skipped and does not move. */
  lemma GameOverInWorldUpdate()
    ensures UpdateWorld(Game(Play, 0, Ship(15, 30, 3), [Enemy(5, 4295, 10), Enemy(15, 1000, 10)],
                             [Laser(Rect(320, 230, 10, 20), -5)], []))
         == Game(Menu, 0, Ship(15, 30, 0), [Enemy(15, 1000, 10)], [Laser(Rect(320, 225, 10, 20), -5)], [])
  {
    var g := Game(Play, 0, Ship(15, 30, 3), [Enemy(5, 4295, 10), Enemy(15, 1000, 10)],
                  [Laser(Rect(320, 230, 10, 20), -5)], []);
    var sc := Scan(g.enemies, false, g, FallStep);
    assert g.enemies[1..] == [Enemy(15, 1000, 10)];
    assert sc.items == [Enemy(15, 1000, 10)];
    var moved := MapAll(Move, g.shipLasers);
    assert |moved| == 1 && moved[0] == Move(g.shipLasers[0]);
    assert moved == [Laser(Rect(320, 225, 10, 20), -5)];
  }

  /** The laser pass of that frame, run although the game is over. */
  lemma ShotAfterGameOver()
    ensures LaserEnemyCollisions(Game(Menu, 0, Ship(15, 30, 0), [Enemy(15, 1000, 10)],
                                      [Laser(Rect(320, 225, 10, 20), -5)], []))
         == Game(Menu, 10, Ship(15, 30, 0), [], [], [])
  {
    var g := Game(Menu, 0, Ship(15, 30, 0), [Enemy(15, 1000, 10)], [Laser(Rect(320, 225, 10, 20), -5)], []);
    assert FirstHit(g.enemies, g.shipLasers[0].rect) == Some(0);
    var hits := Scan(g.shipLasers, false, g, HitStep);
    assert hits.items == [];
  }
}

/**
 What holds of every state a session can reach from its start, and how the
 modes gate the game: a paused game and a game in the menu do not move.
 */
module Invariants {
  import opened PyLists
  import opened Geometry
  import opened Entities
  import opened Session

  /** The reachable-state invariant: hit points within 0..100, a score that
      is a non-negative multiple of 10, the ship within columns 0..31 on row
      30, ship lasers flying up and enemy lasers down, and every enemy in a
      spawn column with a spawn speed. */
  predicate Inv(g: Game)
  {
    && 0 <= g.ship.hp <= 100
    && 0 <= g.score && g.score % 10 == 0
    && 0 <= g.ship.x <= 31 && g.ship.y == 30
    && (forall l :: l in g.shipLasers ==> l.vel == -5)
    && (forall l :: l in g.enemyLasers ==> l.vel == 5)
    && (forall e :: e in g.enemies ==> ValidEnemy(e))
  }

  lemma InitialInv()
    ensures Inv(Initial())
  {
  }

  /** Moving every laser keeps every velocity. */
  lemma MovedLasersKeepVelocity(s: seq<Laser>, v: int)
    requires forall l :: l in s ==> l.vel == v
    ensures forall l :: l in MapAll(Move, s) ==> l.vel == v
  {
    forall l | l in MapAll(Move, s)
      ensures l.vel == v
    {
      var i :| 0 <= i < |s| && MapAll(Move, s)[i] == l;
      assert s[i] in s;
    }
  }

  /** Key events keep the invariant. */
  lemma {:induction false} HandleKeysInv(g: Game, keys: seq<Key>)
    requires Inv(g)
    ensures Inv(HandleKeys(g, keys))
    decreases |keys|
  {
    if |keys| > 0 {
      var h := HandleKey(g, keys[0]);
      ShipStaysOnScreen(g.ship);
      assert Inv(h) by {
        if g.mode == Play && keys[0] == Space {
          assert h.shipLasers == g.shipLasers + [ShipShoot(g.ship)];
          assert forall l :: l in h.shipLasers ==> l in g.shipLasers || l == ShipShoot(g.ship);
        }
      }
      HandleKeysInv(h, keys[1..]);
    }
  }

  lemma GenerateWaveInv(g: Game, d: Draw)
    requires Inv(g) && ValidDraw(d)
    ensures Inv(GenerateWave(g, d))
  {
    var r := GenerateWave(g, d);
    if |g.enemies| == 0 {
      forall e | e in r.enemies
        ensures ValidEnemy(e)
      {
        var i :| 0 <= i < |r.enemies| && r.enemies[i] == e;
        assert Spawnable(r.enemies[i]);
      }
    }
  }

  lemma UpdateWorldInv(g: Game)
    requires Inv(g)
    ensures Inv(UpdateWorld(g))
  {
    ScanKeepsItems(g.enemies, false, g, FallStep, ValidEnemy);
    MovedLasersKeepVelocity(g.shipLasers, -5);
    MovedLasersKeepVelocity(g.enemyLasers, 5);
  }

  lemma LaserEnemyCollisionsInv(g: Game)
    requires Inv(g)
    ensures Inv(LaserEnemyCollisions(g))
  {
    var r := LaserEnemyCollisions(g);
    assert Subseq(r.enemies, g.enemies) && Subseq(r.shipLasers, g.shipLasers);
    assert r.ship == g.ship && r.enemyLasers == g.enemyLasers;
    var k := |g.shipLasers| - |r.shipLasers|;
    assert r.score == g.score + 10 * k;
    LaserPassKeeps(g, r, k);
  }

  lemma LaserPassKeeps(g: Game, r: Game, k: int)
    requires Inv(g)
    requires Subseq(r.enemies, g.enemies) && Subseq(r.shipLasers, g.shipLasers)
    requires r.ship == g.ship && r.enemyLasers == g.enemyLasers
    requires 0 <= k && r.score == g.score + 10 * k
    ensures Inv(r)
  {
    SubseqMembers(r.enemies, g.enemies);
    SubseqMembers(r.shipLasers, g.shipLasers);
  }

  lemma PlayerEnemyCollisionsInv(g: Game)
    requires Inv(g)
    ensures Inv(PlayerEnemyCollisions(g))
  {
    var r := PlayerEnemyCollisions(g);
    SubseqMembers(r.enemies, g.enemies);
  }

  /** The four-pass update keeps the invariant. */
  lemma UpdateInv(g: Game, d: Draw)
    requires Inv(g) && ValidDraw(d)
    ensures Inv(Update(g, d))
  {
    var spawned := GenerateWave(g, d);
    GenerateWaveInv(g, d);
    var moved := UpdateWorld(spawned);
    UpdateWorldInv(spawned);
    var shot := LaserEnemyCollisions(moved);
    LaserEnemyCollisionsInv(moved);
    PlayerEnemyCollisionsInv(shot);
  }

  /** One frame keeps the invariant. */
  lemma FrameInv(g: Game, keys: seq<Key>, d: Draw)
    requires Inv(g) && ValidDraw(d)
    ensures Inv(Frame(g, keys, d))
  {
    HandleKeysInv(g, keys);
    var h := HandleKeys(g, keys);
    if h.mode == Play {
      UpdateInv(h, d);
    }
  }

  /** Every state the game loop reaches from the start satisfies the
      invariant, whatever keys are pressed and whatever the dice say. */
  lemma {:induction false} RunInv(g: Game, inputs: seq<Input>)
    requires Inv(g)
    requires forall i :: 0 <= i < |inputs| ==> ValidDraw(inputs[i].draw)
    ensures Inv(Run(g, inputs))
    decreases |inputs|
  {
    if |inputs| > 0 {
      FrameInv(g, inputs[0].keys, inputs[0].draw);
      RunInv(Frame(g, inputs[0].keys, inputs[0].draw), inputs[1..]);
    }
  }

  /** In pause, only ESCAPE is heard: without it a frame changes nothing. */
  lemma {:induction false} PauseFreezes(g: Game, keys: seq<Key>, d: Draw)
    requires g.mode == Pause && Escape !in keys && ValidDraw(d)
    ensures HandleKeys(g, keys) == g
    ensures Frame(g, keys, d) == g
    decreases |keys|
  {
    if |keys| > 0 {
      assert keys[0] != Escape;
      assert Escape !in keys[1..];
      PauseFreezes(g, keys[1..], d);
    }
  }

  /** In the menu, only RETURN is heard: without it a frame changes nothing. */
  lemma {:induction false} MenuWaits(g: Game, keys: seq<Key>, d: Draw)
    requires g.mode == Menu && Return !in keys && ValidDraw(d)
    ensures HandleKeys(g, keys) == g
    ensures Frame(g, keys, d) == g
    decreases |keys|
  {
    if |keys| > 0 {
      assert keys[0] != Return;
      assert Return !in keys[1..];
      MenuWaits(g, keys[1..], d);
    }
  }

  /** ESCAPE twice outside the menu gets back to where it started. */
  lemma EscapeToggles(g: Game)
    requires g.mode != Menu
    ensures HandleKey(g, Escape).mode != g.mode
    ensures HandleKey(HandleKey(g, Escape), Escape) == g
  {
  }

  /** Key events change the score only by the reset RETURN makes in the
      menu, so a frame without RETURN never lowers the score. */
  lemma {:induction false} ScoreNeverDrops(g: Game, keys: seq<Key>, d: Draw)
    requires Return !in keys && ValidDraw(d)
    ensures HandleKeys(g, keys).score == g.score
    ensures Frame(g, keys, d).score >= g.score
    decreases |keys|
  {
    if |keys| > 0 {
      assert keys[0] != Return;
      assert Return !in keys[1..];
      ScoreNeverDrops(HandleKey(g, keys[0]), keys[1..], d);
    }
  }

  /** Key events never end a game; when a frame that starts in play ends in
      the menu, the damage routine has brought the hit points to 0. */
  lemma {:induction false} GameEndsOnlyAtZero(g: Game, keys: seq<Key>, d: Draw)
    requires g.mode != Menu && ValidDraw(d)
    ensures HandleKeys(g, keys).mode != Menu
    ensures Frame(g, keys, d).mode == Menu ==> Frame(g, keys, d).ship.hp == 0
    decreases |keys|
  {
    if |keys| > 0 {
      GameEndsOnlyAtZero(HandleKey(g, keys[0]), keys[1..], d);
    }
  }
}

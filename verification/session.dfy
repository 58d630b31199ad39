/**
 One game session (`Game` in the source): the mode machine driven by key
 events, and the per-frame update that runs four passes in a fixed order
 while playing. Each pass is a Python `for` loop that removes from the list it
 walks, modelled with `PyLists.ForEach` so that the element after each
 removal is passed over, exactly as the game does.
 */
module Session {
  import opened PyLists
  import opened Geometry
  import opened Entities

  /** MENU_STATE = 0, PLAY_STATE = 1, PAUSE_STATE = 2. */
  datatype Mode = Menu | Play | Pause

  /** The key-down events the game reacts to; any other key is `OtherKey`. */
  datatype Key = Return | Escape | LeftArrow | RightArrow | Space | OtherKey

  /** The state the game loop changes. The class-level laser registry, keyed
      by the shooter's class, is held as two lists: the ship's lasers and the
      enemies' lasers. */
  datatype Game = Game(
    mode: Mode,
    score: int,
    ship: Ship,
    enemies: seq<Enemy>,
    shipLasers: seq<Laser>,
    enemyLasers: seq<Laser>)

  /** Window height in pixels (`windowRow * cellSize`). */
  const Height: int := Rows * CellSize

  /** An enemy whose row exceeds `windowRow + 5` has left the playfield
      (in hundredths of a row). */
  const BottomY100: int := (Rows + 5) * 100

  /** The session as the game starts: in the menu, score 0, no enemies and
      an empty laser registry. */
  function Initial(): Game
  {
    Game(Menu, 0, StartShip, [], [], [])
  }

  function Max0(n: int): int
  {
    if n < 0 then 0 else n
  }

  // ---------------------------------------------------------------- damage

  /** `Game.__decrease_player_hp`: the one place a game ends. Only hit points
      and mode change; the mode changes only to the menu, and only with the
      hit points clamped to 0. */
  function DecreaseHp(g: Game, amount: int): (r: Game)
    ensures r.ship.hp >= 0
    ensures r == g.(ship := g.ship.(hp := r.ship.hp), mode := r.mode)
    ensures r.mode != g.mode ==> r.mode == Menu && r.ship.hp == 0
    ensures r.mode == Menu <==> g.mode == Menu || g.ship.hp < amount
    ensures g.ship.hp >= amount ==> r.ship.hp == g.ship.hp - amount
    ensures g.ship.hp < amount ==> r.ship.hp == 0
  {
    var hp := g.ship.hp - amount;
    if hp < 0 then g.(ship := g.ship.(hp := 0), mode := Menu)
    else g.(ship := g.ship.(hp := hp))
  }

  /** `DecreaseHp` with a fixed amount, as a function value. */
  function Damage(amount: int): Game -> Game
  {
    g => DecreaseHp(g, amount)
  }

  /** `k` hits of `amount` in a row leave `max(0, hp - k * amount)` hit
      points; the game ends exactly when that difference is negative, so
      landing on 0 keeps playing. Nothing else changes. */
  lemma {:induction false} RepeatedDamage(g: Game, amount: int, k: nat)
    requires g.ship.hp >= 0 && amount > 0
    ensures Iterate(Damage(amount), g, k).ship.hp == Max0(g.ship.hp - k * amount)
    ensures Iterate(Damage(amount), g, k).mode == (if g.ship.hp - k * amount < 0 then Menu else g.mode)
    ensures Iterate(Damage(amount), g, k)
         == g.(ship := g.ship.(hp := Iterate(Damage(amount), g, k).ship.hp), mode := Iterate(Damage(amount), g, k).mode)
    decreases k
  {
    if k > 0 {
      var g1 := DecreaseHp(g, amount);
      assert Iterate(Damage(amount), g, k) == Iterate(Damage(amount), g1, k - 1);
      RepeatedDamage(g1, amount, k - 1);
      assert k * amount == amount + (k - 1) * amount;
      assert (k - 1) * amount >= 0;
    }
  }

  // ----------------------------------------------------------------- spawn

  /** The random draws of one frame: `randint(5, 10)` for the wave and the
      choices for each new enemy. */
  datatype Draw = Draw(roll: int, picks: seq<SpawnPick>)

  predicate ValidDraw(d: Draw)
  {
    && 5 <= d.roll <= 10
    && |d.picks| >= d.roll - 1
    && forall i :: 0 <= i < |d.picks| ==> ValidPick(d.picks[i])
  }

  /** The enemies `for i in range(1, roll)` creates: one fewer than the roll. */
  function Wave(d: Draw): (w: seq<Enemy>)
    requires ValidDraw(d)
    ensures |w| == d.roll - 1 && 4 <= |w| <= 9
    ensures forall i :: 0 <= i < |w| ==> Spawnable(w[i])
  {
    RangeLength(1, d.roll);
    var count := |Range(1, d.roll, 1)|;
    seq(count, i requires 0 <= i < count => NewEnemy(d.picks[i]))
  }

  /** `Game.__generate_enemy_wave`: a new wave only when no enemy is left. */
  function GenerateWave(g: Game, d: Draw): (r: Game)
    requires ValidDraw(d)
    ensures |g.enemies| > 0 ==> r == g
    ensures |g.enemies| == 0 ==> 4 <= |r.enemies| <= 9
    ensures |g.enemies| == 0 ==> forall i :: 0 <= i < |r.enemies| ==> Spawnable(r.enemies[i])
    ensures r == g.(enemies := r.enemies)
  {
    if |g.enemies| == 0 then g.(enemies := g.enemies + Wave(d)) else g
  }

  /** A pass whose turns either keep the loop state or apply `DecreaseHp`
      with a fixed amount: afterwards only hit points and mode have changed,
      by the closed form of `RepeatedDamage` for the number of removals. */
  lemma DamagePass<T>(s: seq<T>, g: Game, body: (T, Game) -> Visit<T, Game>, amount: int)
    requires amount > 0
    requires forall t, a :: body(t, a).keep.Some? ==> body(t, a).acc == a
    requires forall t, a :: body(t, a).keep.None? ==> body(t, a).acc == DecreaseHp(a, amount)
    ensures Scan(s, false, g, body).acc
         == g.(ship := g.ship.(hp := Scan(s, false, g, body).acc.ship.hp), mode := Scan(s, false, g, body).acc.mode)
    ensures g.ship.hp >= 0 ==>
      Scan(s, false, g, body).acc.ship.hp == Max0(g.ship.hp - amount * |Scan(s, false, g, body).dropped|)
    ensures g.ship.hp >= 0 ==>
      Scan(s, false, g, body).acc.mode
        == (if g.ship.hp - amount * |Scan(s, false, g, body).dropped| < 0 then Menu else g.mode)
    ensures Scan(s, false, g, body).acc.mode != g.mode ==>
      Scan(s, false, g, body).acc.mode == Menu && Scan(s, false, g, body).acc.ship.hp == 0
  {
    ScanKeepsState(s, false, g, body, (a: Game) => a == g.(ship := g.ship.(hp := a.ship.hp), mode := a.mode));
    ScanKeepsState(s, false, g, body, (a: Game) => a.mode == g.mode || (a.mode == Menu && a.ship.hp == 0));
    if g.ship.hp >= 0 {
      ScanIterates(s, false, g, body, Damage(amount));
      RepeatedDamage(g, amount, |Scan(s, false, g, body).dropped|);
    }
  }

  /** The laser loops of the world update move every laser and remove none. */
  lemma LasersAllMove(s: seq<Laser>)
    ensures ForEach(s, 0, (), FlyStep).items == MapAll(Move, s)
  {
    LoopIsScan(s, (), FlyStep);
    ScanTotal(s, (), FlyStep, Move);
  }

  // ---------------------------------------------------------- world update

  /** One turn of the enemy loop of `__update_game_world`: move, then drop
      the enemy at 5 hit points' cost if it is past the bottom. */
  function FallStep(e: Enemy, g: Game): Visit<Enemy, Game>
  {
    var moved := Drift(e);
    if moved.y100 > BottomY100 then Visit(None, DecreaseHp(g, 5)) else Visit(Some(moved), g)
  }

  /** One turn of a laser loop of `__update_game_world`: move, then the
      cull test `height < y < 0`, which no `y` passes. */
  function FlyStep(l: Laser, u: ()): Visit<Laser, ()>
  {
    var moved := Move(l);
    if Height < moved.rect.y < 0 then Visit(None, u) else Visit(Some(moved), u)
  }

  /** `Game.__update_game_world`. Enemies: the skip-after-removal scan of the
      old list, 5 hit points per enemy gone. Lasers: every one moved and none
      removed. Score and ship position unchanged. */
  function UpdateWorld(g: Game): (r: Game)
    ensures r.enemies == Scan(g.enemies, false, g, FallStep).items
    ensures |r.enemies| <= |g.enemies|
    ensures r.shipLasers == MapAll(Move, g.shipLasers)
    ensures r.enemyLasers == MapAll(Move, g.enemyLasers)
    ensures r.score == g.score && r.ship.x == g.ship.x && r.ship.y == g.ship.y
    ensures g.ship.hp >= 0 ==> r.ship.hp == Max0(g.ship.hp - 5 * (|g.enemies| - |r.enemies|))
    ensures g.ship.hp >= 0 ==> r.mode == (if g.ship.hp - 5 * (|g.enemies| - |r.enemies|) < 0 then Menu else g.mode)
    ensures r.mode != g.mode ==> r.mode == Menu && r.ship.hp == 0
  {
    var falls := ForEach(g.enemies, 0, g, FallStep);
    var g1 := falls.acc.(enemies := falls.items);
    LoopIsScan(g.enemies, g, FallStep);
    DamagePass(g.enemies, g, FallStep, 5);
    LasersAllMove(g1.shipLasers);
    LasersAllMove(g1.enemyLasers);
    g1.(shipLasers := ForEach(g1.shipLasers, 0, (), FlyStep).items,
        enemyLasers := ForEach(g1.enemyLasers, 0, (), FlyStep).items)
  }

  /** The world update removes only enemies that, once moved, are past the
      bottom. */
  lemma OnlyFallenLeave(g: Game)
    ensures forall e :: e in Scan(g.enemies, false, g, FallStep).dropped ==> Drift(e).y100 > BottomY100
  {
    ScanDropsOnly(g.enemies, false, g, FallStep, (a: Game) => true, (e: Enemy) => Drift(e).y100 > BottomY100);
  }

  // ------------------------------------------------------ laser vs. enemy

  /** The inner `for enemy in self.enemies ... break` of the laser pass: the
      first enemy whose hitbox the laser overlaps. */
  function FirstHit(es: seq<Enemy>, r: Rect): (o: Option<nat>)
    ensures o.Some? ==> o.value < |es| && Overlap(r, EnemySolidRect(es[o.value]))
    ensures o.Some? ==> forall k :: 0 <= k < o.value ==> !Overlap(r, EnemySolidRect(es[k]))
    ensures o.None? ==> forall k :: 0 <= k < |es| ==> !Overlap(r, EnemySolidRect(es[k]))
    decreases |es|
  {
    if |es| == 0 then None
    else if Overlap(r, EnemySolidRect(es[0])) then Some(0)
    else
      match FirstHit(es[1..], r)
      case None => None
      case Some(j) => Some(j + 1)
  }

  /** One turn of the outer loop over the ship's lasers: a laser that hits
      an enemy takes that one enemy with it and scores 10. */
  function HitStep(l: Laser, g: Game): Visit<Laser, Game>
  {
    match FirstHit(g.enemies, l.rect)
    case None => Visit(Some(l), g)
    case Some(j) => Visit(None, g.(enemies := RemoveAt(g.enemies, j), score := g.score + 10))
  }

  lemma HitStepKeeps(g: Game)
    ensures forall l: Laser, a: Game :: Subseq(a.enemies, g.enemies) ==> Subseq(HitStep(l, a).acc.enemies, g.enemies)
  {
    forall l: Laser, a: Game | Subseq(a.enemies, g.enemies)
      ensures Subseq(HitStep(l, a).acc.enemies, g.enemies)
    {
      match FirstHit(a.enemies, l.rect)
      case None =>
      case Some(j) =>
        SubseqRemoveAt(a.enemies, j);
        SubseqTrans(RemoveAt(a.enemies, j), a.enemies, g.enemies);
    }
  }

  /** The laser loop is the reference scan; both lists keep their survivors
      in order, and each laser removed takes one enemy and 10 points. */
  lemma HitPass(s: seq<Laser>, g: Game)
    ensures ForEach(s, 0, g, HitStep).items == Scan(s, false, g, HitStep).items
    ensures ForEach(s, 0, g, HitStep).acc == Scan(s, false, g, HitStep).acc
    ensures Subseq(Scan(s, false, g, HitStep).items, s)
    ensures forall l :: l in Scan(s, false, g, HitStep).dropped ==>
      exists e :: e in g.enemies && Overlap(l.rect, EnemySolidRect(e))
    ensures s == g.shipLasers ==>
      forall e :: e in multiset(g.enemies) - multiset(Scan(s, false, g, HitStep).acc.enemies) ==>
        exists l :: l in g.shipLasers && Overlap(l.rect, EnemySolidRect(e))
    ensures Subseq(Scan(s, false, g, HitStep).acc.enemies, g.enemies)
    ensures Scan(s, false, g, HitStep).acc.score == g.score + 10 * |Scan(s, false, g, HitStep).dropped|
    ensures |Scan(s, false, g, HitStep).acc.enemies| == |g.enemies| - |Scan(s, false, g, HitStep).dropped|
    ensures Scan(s, false, g, HitStep).acc.mode == g.mode
    ensures Scan(s, false, g, HitStep).acc.ship == g.ship
    ensures Scan(s, false, g, HitStep).acc.shipLasers == g.shipLasers
    ensures Scan(s, false, g, HitStep).acc.enemyLasers == g.enemyLasers
  {
    LoopIsScan(s, g, HitStep);
    ScanInPlace(s, false, g, HitStep);
    HitsCount(s, g);
    HitsKeepOrder(s, g);
    HitsTouchNothingElse(s, g);
    HitLasersOverlapped(s, g);
    if s == g.shipLasers {
      HitEnemiesWereShot(g);
    }
  }

  /** Every laser the pass removes overlapped an enemy present before it. */
  lemma HitLasersOverlapped(s: seq<Laser>, g: Game)
    ensures forall l :: l in Scan(s, false, g, HitStep).dropped ==>
      exists e :: e in g.enemies && Overlap(l.rect, EnemySolidRect(e))
  {
    SubseqRefl(g.enemies);
    HitStepKeeps(g);
    forall t: Laser, a: Game | Subseq(a.enemies, g.enemies) && HitStep(t, a).keep.None?
      ensures exists e :: e in g.enemies && Overlap(t.rect, EnemySolidRect(e))
    {
      var j := FirstHit(a.enemies, t.rect).value;
      SubseqMembers(a.enemies, g.enemies);
      assert a.enemies[j] in a.enemies;
    }
    ScanDropsOnly(s, false, g, HitStep, (a: Game) => Subseq(a.enemies, g.enemies),
      (l: Laser) => exists e :: e in g.enemies && Overlap(l.rect, EnemySolidRect(e)));
  }

  /** Every enemy the state `a` has lost, against `g`, was overlapped by one
      of the ship's lasers in `g`. */
  ghost predicate ShotDown(g: Game, a: Game)
  {
    forall e :: multiset(a.enemies)[e] < multiset(g.enemies)[e] ==>
      exists l :: l in g.shipLasers && Overlap(l.rect, EnemySolidRect(e))
  }

  /** A visit of one of the ship's lasers keeps `ShotDown`: the enemy it
      removes is one it overlaps. */
  lemma HitStepShotDown(g: Game, t: Laser, a: Game)
    requires t in g.shipLasers && ShotDown(g, a)
    ensures ShotDown(g, HitStep(t, a).acc)
  {
    match FirstHit(a.enemies, t.rect)
    case None =>
    case Some(j) =>
      var x := a.enemies[j];
      var b := HitStep(t, a).acc;
      assert multiset(b.enemies) + multiset{x} == multiset(a.enemies);
      forall e | multiset(b.enemies)[e] < multiset(g.enemies)[e]
        ensures exists l :: l in g.shipLasers && Overlap(l.rect, EnemySolidRect(e))
      {
        if e == x {
          assert Overlap(t.rect, EnemySolidRect(e));
        } else {
          assert multiset(b.enemies)[e] == multiset(a.enemies)[e];
        }
      }
  }

  /** Every enemy the laser pass removes was overlapped by a ship laser. */
  lemma HitEnemiesWereShot(g: Game)
    ensures forall e :: e in multiset(g.enemies) - multiset(Scan(g.shipLasers, false, g, HitStep).acc.enemies) ==>
      exists l :: l in g.shipLasers && Overlap(l.rect, EnemySolidRect(e))
  {
    forall t: Laser, a: Game | t in g.shipLasers && ShotDown(g, a)
      ensures ShotDown(g, HitStep(t, a).acc)
    {
      HitStepShotDown(g, t, a);
    }
    ScanKeepsStateIn(g.shipLasers, false, g, HitStep, (l: Laser) => l in g.shipLasers, (a: Game) => ShotDown(g, a));
    var r := Scan(g.shipLasers, false, g, HitStep).acc;
    forall e | e in multiset(g.enemies) - multiset(r.enemies)
      ensures exists l :: l in g.shipLasers && Overlap(l.rect, EnemySolidRect(e))
    {
      assert multiset(r.enemies)[e] < multiset(g.enemies)[e];
    }
  }

  lemma HitsCount(s: seq<Laser>, g: Game)
    ensures Scan(s, false, g, HitStep).acc.score == g.score + 10 * |Scan(s, false, g, HitStep).dropped|
    ensures |Scan(s, false, g, HitStep).acc.enemies| == |g.enemies| - |Scan(s, false, g, HitStep).dropped|
  {
    ScanCounts(s, false, g, HitStep, (a: Game) => a.score, 10);
    ScanCounts(s, false, g, HitStep, (a: Game) => |a.enemies|, -1);
  }

  lemma HitsKeepOrder(s: seq<Laser>, g: Game)
    ensures Subseq(Scan(s, false, g, HitStep).acc.enemies, g.enemies)
  {
    SubseqRefl(g.enemies);
    HitStepKeeps(g);
    ScanKeepsState(s, false, g, HitStep, (a: Game) => Subseq(a.enemies, g.enemies));
  }

  lemma HitsTouchNothingElse(s: seq<Laser>, g: Game)
    ensures Scan(s, false, g, HitStep).acc.mode == g.mode
    ensures Scan(s, false, g, HitStep).acc.ship == g.ship
    ensures Scan(s, false, g, HitStep).acc.shipLasers == g.shipLasers
    ensures Scan(s, false, g, HitStep).acc.enemyLasers == g.enemyLasers
  {
    ScanKeepsState(s, false, g, HitStep,
      (a: Game) => a.mode == g.mode && a.ship == g.ship && a.shipLasers == g.shipLasers && a.enemyLasers == g.enemyLasers);
  }

  /** `Game.__check_leser_enemy_collision`. Every ship laser that goes takes
      exactly one enemy and 10 points with it; survivors of both lists keep
      their order; hit points, mode, ship and enemy lasers are untouched. */
  function LaserEnemyCollisions(g: Game): (r: Game)
    ensures r.shipLasers == Scan(g.shipLasers, false, g, HitStep).items
    ensures r.enemies == Scan(g.shipLasers, false, g, HitStep).acc.enemies
    ensures forall l :: l in multiset(g.shipLasers) - multiset(r.shipLasers) ==>
      exists e :: e in g.enemies && Overlap(l.rect, EnemySolidRect(e))
    ensures forall e :: e in multiset(g.enemies) - multiset(r.enemies) ==>
      exists l :: l in g.shipLasers && Overlap(l.rect, EnemySolidRect(e))
    ensures Subseq(r.shipLasers, g.shipLasers)
    ensures Subseq(r.enemies, g.enemies)
    ensures |g.enemies| - |r.enemies| == |g.shipLasers| - |r.shipLasers|
    ensures r.score == g.score + 10 * (|g.shipLasers| - |r.shipLasers|)
    ensures r.mode == g.mode && r.ship == g.ship && r.enemyLasers == g.enemyLasers
  {
    var hits := ForEach(g.shipLasers, 0, g, HitStep);
    HitPass(g.shipLasers, g);
    RemovedLasersOverlapped(g);
    hits.acc.(shipLasers := hits.items)
  }

  lemma RemovedLasersOverlapped(g: Game)
    ensures forall l :: l in multiset(g.shipLasers) - multiset(Scan(g.shipLasers, false, g, HitStep).items) ==>
      exists e :: e in g.enemies && Overlap(l.rect, EnemySolidRect(e))
  {
    var sc := Scan(g.shipLasers, false, g, HitStep);
    ScanInPlace(g.shipLasers, false, g, HitStep);
    HitLasersOverlapped(g.shipLasers, g);
    assert multiset(g.shipLasers) - multiset(sc.items) == multiset(sc.dropped);
    forall l | l in multiset(g.shipLasers) - multiset(sc.items)
      ensures exists e :: e in g.enemies && Overlap(l.rect, EnemySolidRect(e))
    {
      assert l in sc.dropped;
    }
  }

  // ------------------------------------------------------ ship vs. enemy

  /** One turn of `__check_player_enemy_collision`: the ship's hitbox is
      taken afresh from the current state, and an enemy that overlaps it is
      dropped at 10 hit points' cost. */
  function CrashStep(e: Enemy, g: Game): Visit<Enemy, Game>
  {
    if Overlap(EnemySolidRect(e), ShipSolidRect(g.ship)) then Visit(None, DecreaseHp(g, 10)) else Visit(Some(e), g)
  }

  /** The ship collision loop is the reference scan; survivors keep their
      order, every enemy removed overlapped the ship as it stood when the
      pass began, and each removal costs 10 hit points. */
  lemma CrashPass(s: seq<Enemy>, g: Game)
    ensures ForEach(s, 0, g, CrashStep).items == Scan(s, false, g, CrashStep).items
    ensures ForEach(s, 0, g, CrashStep).acc == Scan(s, false, g, CrashStep).acc
    ensures Subseq(Scan(s, false, g, CrashStep).items, s)
    ensures forall e :: e in multiset(s) - multiset(Scan(s, false, g, CrashStep).items)
                     ==> Overlap(EnemySolidRect(e), ShipSolidRect(g.ship))
    ensures Scan(s, false, g, CrashStep).acc
         == g.(ship := g.ship.(hp := Scan(s, false, g, CrashStep).acc.ship.hp),
               mode := Scan(s, false, g, CrashStep).acc.mode)
    ensures g.ship.hp >= 0 ==>
      Scan(s, false, g, CrashStep).acc.ship.hp == Max0(g.ship.hp - 10 * |Scan(s, false, g, CrashStep).dropped|)
    ensures g.ship.hp >= 0 ==>
      Scan(s, false, g, CrashStep).acc.mode
        == (if g.ship.hp - 10 * |Scan(s, false, g, CrashStep).dropped| < 0 then Menu else g.mode)
    ensures Scan(s, false, g, CrashStep).acc.mode != g.mode ==>
      Scan(s, false, g, CrashStep).acc.mode == Menu && Scan(s, false, g, CrashStep).acc.ship.hp == 0
  {
    LoopIsScan(s, g, CrashStep);
    CrashesOnlyOverlapping(s, g);
    DamagePass(s, g, CrashStep, 10);
  }

  lemma CrashesOnlyOverlapping(s: seq<Enemy>, g: Game)
    ensures Subseq(Scan(s, false, g, CrashStep).items, s)
    ensures forall e :: e in multiset(s) - multiset(Scan(s, false, g, CrashStep).items)
                     ==> Overlap(EnemySolidRect(e), ShipSolidRect(g.ship))
  {
    var sc := Scan(s, false, g, CrashStep);
    ScanInPlace(s, false, g, CrashStep);
    var P := (a: Game) => a.ship.x == g.ship.x && a.ship.y == g.ship.y;
    var D := (e: Enemy) => Overlap(EnemySolidRect(e), ShipSolidRect(g.ship));
    forall t: Enemy, a: Game | P(a) && CrashStep(t, a).keep.None?
      ensures D(t)
    {
      assert ShipSolidRect(a.ship) == ShipSolidRect(g.ship);
    }
    ScanDropsOnly(s, false, g, CrashStep, P, D);
    assert multiset(s) - multiset(sc.items) == multiset(sc.dropped);
    forall e | e in multiset(s) - multiset(sc.items)
      ensures Overlap(EnemySolidRect(e), ShipSolidRect(g.ship))
    {
      assert e in sc.dropped;
    }
  }

  /** The skip only matters for neighbours: when no two adjacent enemies
      both overlap the ship, the pass removes exactly the enemies that
      overlap it. */
  lemma CrashesApart(g: Game)
    requires Apart(g.enemies, (e: Enemy) => Overlap(EnemySolidRect(e), ShipSolidRect(g.ship)))
    ensures PlayerEnemyCollisions(g).enemies
         == Filter(g.enemies, (e: Enemy) => !Overlap(EnemySolidRect(e), ShipSolidRect(g.ship)))
  {
    var D := (e: Enemy) => Overlap(EnemySolidRect(e), ShipSolidRect(g.ship));
    CrashScanFilters(g, D);
    FilterExt(g.enemies, Not(D), (e: Enemy) => !Overlap(EnemySolidRect(e), ShipSolidRect(g.ship)));
  }

  lemma CrashScanFilters(g: Game, D: Enemy -> bool)
    requires forall e :: D(e) == Overlap(EnemySolidRect(e), ShipSolidRect(g.ship))
    requires Apart(g.enemies, D)
    ensures Scan(g.enemies, false, g, CrashStep).items == Filter(g.enemies, Not(D))
  {
    CrashStepDecides(g, D);
    ScanFilters(g.enemies, g, CrashStep, (a: Game) => a.ship.x == g.ship.x && a.ship.y == g.ship.y, D);
  }

  /** While the ship stays where it was, a crash visit removes exactly the
      enemies that overlap it and changes no enemy. */
  lemma CrashStepDecides(g: Game, D: Enemy -> bool)
    requires forall e :: D(e) == Overlap(EnemySolidRect(e), ShipSolidRect(g.ship))
    ensures forall t: Enemy, a: Game :: a.ship.x == g.ship.x && a.ship.y == g.ship.y ==>
      && CrashStep(t, a).acc.ship.x == g.ship.x && CrashStep(t, a).acc.ship.y == g.ship.y
      && (CrashStep(t, a).keep.None? <==> D(t))
      && (CrashStep(t, a).keep.Some? ==> CrashStep(t, a).keep.value == t)
  {
    forall t: Enemy, a: Game | a.ship.x == g.ship.x && a.ship.y == g.ship.y
      ensures CrashStep(t, a).acc.ship.x == g.ship.x && CrashStep(t, a).acc.ship.y == g.ship.y
      ensures CrashStep(t, a).keep.None? <==> D(t)
    {
      assert ShipSolidRect(a.ship) == ShipSolidRect(g.ship);
    }
  }

  /** `Game.__check_player_enemy_collision`. Survivors keep their order,
      every enemy that goes overlapped the ship, 10 hit points per enemy gone;
      score, lasers and ship position are untouched. */
  function PlayerEnemyCollisions(g: Game): (r: Game)
    ensures r.enemies == Scan(g.enemies, false, g, CrashStep).items
    ensures Subseq(r.enemies, g.enemies)
    ensures forall e :: e in multiset(g.enemies) - multiset(r.enemies) ==> Overlap(EnemySolidRect(e), ShipSolidRect(g.ship))
    ensures r.score == g.score && r.shipLasers == g.shipLasers && r.enemyLasers == g.enemyLasers
    ensures r.ship.x == g.ship.x && r.ship.y == g.ship.y
    ensures g.ship.hp >= 0 ==> r.ship.hp == Max0(g.ship.hp - 10 * (|g.enemies| - |r.enemies|))
    ensures g.ship.hp >= 0 ==> r.mode == (if g.ship.hp - 10 * (|g.enemies| - |r.enemies|) < 0 then Menu else g.mode)
    ensures r.mode != g.mode ==> r.mode == Menu && r.ship.hp == 0
  {
    var crashes := ForEach(g.enemies, 0, g, CrashStep);
    CrashPass(g.enemies, g);
    crashes.acc.(enemies := crashes.items)
  }

  // ------------------------------------------------------------ the frame

  /** The update part of one frame while playing: spawn, world update,
      laser-enemy pass, ship-enemy pass, all four even when an earlier pass
      ended the game. */
  function Update(g: Game, d: Draw): (r: Game)
    requires ValidDraw(d)
    ensures r.score == g.score + 10 * (|g.shipLasers| - |r.shipLasers|)
    ensures |r.shipLasers| <= |g.shipLasers|
    ensures r.enemyLasers == MapAll(Move, g.enemyLasers)
    ensures r.ship.x == g.ship.x && r.ship.y == g.ship.y
    ensures g.ship.hp >= 0 ==> 0 <= r.ship.hp <= g.ship.hp
    ensures r.mode != g.mode ==> r.mode == Menu && r.ship.hp == 0
  {
    var spawned := GenerateWave(g, d);
    var moved := UpdateWorld(spawned);
    var shot := LaserEnemyCollisions(moved);
    PlayerEnemyCollisions(shot)
  }

  /** `Game.__reset`: hit points, score and enemies only; the lasers and the
      ship's position are kept. */
  function Reset(g: Game): (r: Game)
    ensures r.ship.hp == 100 && r.score == 0 && r.enemies == []
    ensures r.mode == g.mode && r.ship.x == g.ship.x && r.ship.y == g.ship.y
    ensures r.shipLasers == g.shipLasers && r.enemyLasers == g.enemyLasers
  {
    g.(ship := g.ship.(hp := 100), score := 0, enemies := [])
  }

  /** One KEYDOWN event of `__activate_gameloop`, with its three checks in
      the source's order: RETURN in the menu starts a game; in play the arrows
      move and SPACE shoots; ESCAPE outside the menu toggles the pause. */
  function HandleKey(g: Game, k: Key): (r: Game)
    ensures g.mode == Menu && k == Return ==>
      && r.mode == Play && r.ship.hp == 100 && r.score == 0 && r.enemies == []
      && r.ship.x == g.ship.x && r.ship.y == g.ship.y
      && r.shipLasers == g.shipLasers && r.enemyLasers == g.enemyLasers
    ensures g.mode == Menu && k != Return ==> r == g
    ensures g.mode == Pause ==> r == (if k == Escape then g.(mode := Play) else g)
    ensures g.mode == Play && k == Escape ==> r == g.(mode := Pause)
    ensures g.mode == Play && k == LeftArrow ==> r == g.(ship := MoveLeft(g.ship))
    ensures g.mode == Play && k == RightArrow ==> r == g.(ship := MoveRight(g.ship))
    ensures g.mode == Play && k == Space ==> r == g.(shipLasers := g.shipLasers + [ShipShoot(g.ship)])
    ensures g.mode == Play && (k == Return || k == OtherKey) ==> r == g
  {
    var started := if g.mode == Menu && k == Return then Reset(g.(mode := Play)) else g;
    var acted :=
      if started.mode == Play then
        match k
        case LeftArrow => started.(ship := MoveLeft(started.ship))
        case RightArrow => started.(ship := MoveRight(started.ship))
        case Space => started.(shipLasers := started.shipLasers + [ShipShoot(started.ship)])
        case _ => started
      else started;
    if k == Escape && acted.mode != Menu then
      acted.(mode := if acted.mode != Pause then Pause else Play)
    else acted
  }

  /** The key events of one frame, in order. */
  function HandleKeys(g: Game, keys: seq<Key>): Game
    decreases |keys|
  {
    if |keys| == 0 then g else HandleKeys(HandleKey(g, keys[0]), keys[1..])
  }

  /** One pass of the game loop: the frame's key events, then the update if
      the game is being played. */
  function Frame(g: Game, keys: seq<Key>, d: Draw): (r: Game)
    requires ValidDraw(d)
    ensures HandleKeys(g, keys).mode != Play ==> r == HandleKeys(g, keys)
    ensures HandleKeys(g, keys).mode == Play ==> r == Update(HandleKeys(g, keys), d)
    ensures r.ship.x == HandleKeys(g, keys).ship.x && r.ship.y == HandleKeys(g, keys).ship.y
    ensures r.score >= HandleKeys(g, keys).score
    ensures r.mode != HandleKeys(g, keys).mode ==> r.mode == Menu && r.ship.hp == 0
  {
    var h := HandleKeys(g, keys);
    if h.mode == Play then Update(h, d) else h
  }

  /** What one frame consumes: the key events and the random draws. */
  datatype Input = Input(keys: seq<Key>, draw: Draw)

  /** The game loop over a run of frames. */
  function Run(g: Game, inputs: seq<Input>): Game
    requires forall i :: 0 <= i < |inputs| ==> ValidDraw(inputs[i].draw)
    decreases |inputs|
  {
    if |inputs| == 0 then g
    else Run(Frame(g, inputs[0].keys, inputs[0].draw), inputs[1..])
  }
}

/** The game board: the controller that owns the ship's movement state, the bullets and the enemies. */
module Battleship {
  import opened Enemies
  import opened Intent
  import opened Arena

  /** The game's configuration constants. */
  datatype Config = Config(
    screenWidth: int,
    screenHeight: int,
    movementSpeed: int,
    startingEnemyCount: nat,
    leftLimit: int,
    rightLimit: int,
    bottomLimit: int,
    topLimit: int)

  /** The spawn box holds a point; otherwise drawing a spawn position fails. */
  predicate SpawnBoxNonEmpty(c: Config) {
    c.bottomLimit < c.topLimit && c.leftLimit < c.rightLimit
  }

  class Board {
    const config: Config

    // The four movement-key flags.
    var wPressed: bool
    var sPressed: bool
    var aPressed: bool
    var dPressed: bool

    // The player ship's velocity.
    var shipChangeX: int
    var shipChangeY: int

    var enemies: seq<Enemy>
    var bullets: seq<Bullet>
    var score: int

    // The score collaborator's two counters.
    var basicHits: nat
    var finalHits: nat

    // Every sound played, in order.
    var cues: seq<Cue>

    /** Every enemy on the board has a size tier in 1..4. */
    ghost predicate Valid()
      reads this
    {
      TiersValid(enemies)
    }

    /** The part of the board that destroying enemies changes. */
    function State(): Tally
      reads this
    {
      Tally(enemies, score, basicHits, finalHits, cues)
    }

    /** The movement-key flags. */
    function Keys(): Held
      reads this
    {
      Held(wPressed, sPressed, aPressed, dPressed)
    }

    /** A fresh board: no key held, no sprites, nothing scored, the background music started. */
    constructor (config: Config)
      ensures this.config == config && Valid()
      ensures Keys() == Held(false, false, false, false)
      ensures enemies == [] && bullets == [] && score == 0
      ensures basicHits == 0 && finalHits == 0 && cues == [Music]
      ensures shipChangeX == 0 && shipChangeY == 0
    {
      this.config := config;
      enemies := [];
      bullets := [];
      score := 0;
      basicHits, finalHits := 0, 0;
      cues := [Music];
      wPressed, sPressed, aPressed, dPressed := false, false, false, false;
      shipChangeX, shipChangeY := 0, 0;
    }

    /** Round set-up: the score is reset, the bullet list and the ship are new, and the configured
        number of tier-4 enemies is appended at positions drawn from the spawn box. Drawing from an
        empty box fails before any enemy is appended; `ok` reports that. */
    method OnShow() returns (ok: bool)
      requires Valid()
      modifies this`score, this`bullets, this`shipChangeX, this`shipChangeY, this`enemies
      ensures Valid()
      ensures ok <==> config.startingEnemyCount == 0 || SpawnBoxNonEmpty(config)
      ensures score == 0 && bullets == [] && shipChangeX == 0 && shipChangeY == 0
      ensures |enemies| == |old(enemies)| + (if ok then config.startingEnemyCount else 0)
      ensures enemies[..|old(enemies)|] == old(enemies)
      ensures forall i :: |old(enemies)| <= i < |enemies| ==>
                && enemies[i].size == 4
                && config.leftLimit <= enemies[i].x < config.rightLimit
                && config.bottomLimit <= enemies[i].y < config.topLimit
      ensures Potential(enemies) == Potential(old(enemies)) + 40 * (|enemies| - |old(enemies)|)
    {
      score := 0;
      bullets := [];
      shipChangeX, shipChangeY := 0, 0;
      if config.startingEnemyCount > 0 && !SpawnBoxNonEmpty(config) {
        return false;
      }
      ghost var before := enemies;
      for i := 0 to config.startingEnemyCount
        modifies this`enemies
        invariant |enemies| == |before| + i
        invariant enemies[..|before|] == before
        invariant forall k :: |before| <= k < |enemies| ==>
                    && enemies[k].size == 4
                    && config.leftLimit <= enemies[k].x < config.rightLimit
                    && config.bottomLimit <= enemies[k].y < config.topLimit
        invariant TiersValid(enemies)
        invariant Potential(enemies) == Potential(before) + 40 * i
      {
        var y :| config.bottomLimit <= y < config.topLimit;
        var x :| config.leftLimit <= x < config.rightLimit;
        var spawned := Enemy(4, x, y);
        PotentialAppend(enemies, [spawned]);
        PotentialSingleton(spawned);
        WeightValues();
        TiersValidAppend(enemies, [spawned]);
        enemies := enemies + [spawned];
      }
      ok := true;
    }

    /** A key-down event. */
    method OnKeyPress(key: Key)
      modifies this`wPressed, this`sPressed, this`aPressed, this`dPressed
      ensures Keys() == Press(old(Keys()), key)
    {
      if key == W {
        wPressed := true;
      } else if key == S {
        sPressed := true;
      } else if key == A {
        aPressed := true;
      } else if key == D {
        dPressed := true;
      }
    }

    /** A key-up event. */
    method OnKeyRelease(key: Key)
      modifies this`wPressed, this`sPressed, this`aPressed, this`dPressed
      ensures Keys() == Release(old(Keys()), key)
    {
      if key == W {
        wPressed := false;
      } else if key == S {
        sPressed := false;
      } else if key == A {
        aPressed := false;
      } else if key == D {
        dPressed := false;
      }
    }

    /** A mouse click fires a bullet; its geometry is given by the caller. */
    method OnMousePress(b: Bullet)
      modifies this`bullets
      ensures bullets == old(bullets) + [b]
    {
      bullets := bullets + [b];
    }

    /** The ship's velocity from the held keys, recomputed every tick. */
    method ResolveVelocity()
      modifies this`shipChangeX, this`shipChangeY
      ensures shipChangeY == Vertical(Keys(), config.movementSpeed)
      ensures shipChangeX == Horizontal(Keys(), config.movementSpeed)
    {
      shipChangeX := 0;
      shipChangeY := 0;
      if wPressed && !sPressed {
        shipChangeY := config.movementSpeed;
      } else if sPressed && !wPressed {
        shipChangeY := -config.movementSpeed;
      }
      if aPressed && !dPressed {
        shipChangeX := -config.movementSpeed;
      } else if dPressed && !aPressed {
        shipChangeX := config.movementSpeed;
      }
    }

    /** Appends three copies of `child`, playing `cue` once for each. */
    method AppendChildren(child: Enemy, cue: Cue)
      modifies this`enemies, this`cues
      ensures enemies == old(enemies) + [child, child, child]
      ensures cues == old(cues) + [cue, cue, cue]
    {
      for i := 0 to 3
        invariant enemies == old(enemies) + seq(i, _ => child)
        invariant cues == old(cues) + seq(i, _ => cue)
      {
        enemies := enemies + [child];
        cues := cues + [cue];
      }
      assert seq(3, _ => child) == [child, child, child];
      assert seq(3, _ => cue) == [cue, cue, cue];
    }

    /** The splitter: scores the destruction of `e`, appends its children, reports the
        destruction to the score collaborator and plays its sounds. Removing `e` is the caller's job. */
    method SplitEnemy(e: Enemy)
      modifies this`enemies, this`score, this`basicHits, this`finalHits, this`cues
      ensures State() == Split(old(State()), e)
    {
      score := score + 1;
      if e.size == 4 {
        AppendChildren(Enemy(3, e.x, e.y), Hit1);
        basicHits := basicHits + 1;
      } else if e.size == 3 {
        AppendChildren(Enemy(2, e.x, e.y), Hit2);
        basicHits := basicHits + 1;
      } else if e.size == 2 {
        AppendChildren(Enemy(1, e.x, e.y), Hit3);
        basicHits := basicHits + 1;
      } else if e.size == 1 {
        cues := cues + [Hit4];
        finalHits := finalHits + 1;
      }
    }

    /** One bullet against the enemies: each enemy of the current list that it collides with is split
        and taken out of the list. `spent` says whether the bullet struck anything. */
    method StrikeWith(b: Bullet, hits: (Bullet, Enemy) -> bool) returns (spent: bool)
      modifies this`enemies, this`score, this`basicHits, this`finalHits, this`cues
      ensures (State(), spent) == Strike(old(State()), b, hits)
    {
      ghost var t0 := State();
      var pool := enemies;
      StrikeLoopComputesStrike(t0, b, hits);
      StrikeSpentIff(t0, b, hits);
      spent := false;
      var j, k := 0, 0;
      while j < |pool|
        invariant 0 <= j <= |pool|
        invariant k + (|pool| - j) <= |enemies|
        invariant StrikeLoop(State(), b, pool, j, k, hits) == Strike(t0, b, hits).0
        invariant spent <==> exists i :: 0 <= i < j && hits(b, pool[i])
      {
        if hits(b, pool[j]) {
          SplitEnemy(pool[j]);
          enemies := enemies[..k] + enemies[k + 1..];
          spent := true;
        } else {
          k := k + 1;
        }
        j := j + 1;
      }
    }

    /** The bullet loop of one tick, over the bullets present when the tick starts: a bullet that
        struck an enemy is removed, and so is one that has left the screen. */
    method SweepBullets(hits: (Bullet, Enemy) -> bool)
      modifies this`enemies, this`bullets, this`score, this`basicHits, this`finalHits, this`cues
      ensures (State(), bullets) == Sweep(old(State()), old(bullets), hits, config.screenWidth)
    {
      ghost var t0 := State();
      var pool, width := bullets, config.screenWidth;
      var i, k := 0, 0;
      ghost var done := Sweep(t0, pool[..0], hits, width);
      while i < |pool|
        invariant 0 <= i <= |pool|
        invariant done == Sweep(t0, pool[..i], hits, width)
        invariant State() == done.0 && k == |done.1| && bullets == done.1 + pool[i..]
      {
        SweepUnfold(t0, pool, i, hits, width);
        LiveSplit(done.1, pool, i);
        ghost var next := Sweep(t0, pool[..i + 1], hits, width);
        var b := pool[i];
        var spent := StrikeWith(b, hits);
        // The source removes a spent bullet and then removes it again if it is off screen;
        // removing a sprite that is already out of its list does nothing.
        if spent || Offscreen(b, width) {
          bullets := bullets[..k] + bullets[k + 1..];
        } else {
          k := k + 1;
        }
        done, i := next, i + 1;
      }
      assert pool[..i] == pool && pool[i..] == [];
      assert bullets == done.1;
      assert done == (done.0, done.1);
    }

    /** One tick: the ship's velocity from the keys, the bullet sweep, then whether the ship touches
        an enemy, which ends the round. A bullet stays exactly when, on its turn, it struck nothing and
        was on screen by the board's test. */
    method OnUpdate(hits: (Bullet, Enemy) -> bool, shipHits: Enemy -> bool) returns (gameOver: bool)
      requires Valid()
      modifies this`shipChangeX, this`shipChangeY, this`enemies, this`bullets
      modifies this`score, this`basicHits, this`finalHits, this`cues
      ensures Valid()
      ensures shipChangeY == Vertical(Keys(), config.movementSpeed)
      ensures shipChangeX == Horizontal(Keys(), config.movementSpeed)
      ensures (State(), bullets) == Sweep(old(State()), old(bullets), hits, config.screenWidth)
      ensures score + Potential(enemies) == old(score) + Potential(old(enemies))
      ensures forall b :: b in bullets ==> b in old(bullets) && !Offscreen(b, config.screenWidth)
      ensures forall b :: b in bullets ==>
                exists i :: 0 <= i < |old(bullets)| && old(bullets)[i] == b
                  && !SpentOnTurn(old(State()), old(bullets), i, hits, config.screenWidth)
      ensures forall i ::
                (0 <= i < |old(bullets)|
                 && !SpentOnTurn(old(State()), old(bullets), i, hits, config.screenWidth)
                 && !Offscreen(old(bullets)[i], config.screenWidth))
                ==> old(bullets)[i] in bullets
      ensures gameOver <==> exists i :: 0 <= i < |enemies| && shipHits(enemies[i])
    {
      ResolveVelocity();
      SweepBullets(hits);
      SweepEffect(old(State()), old(bullets), hits, config.screenWidth);
      SweepSurvivorsStruckNothing(old(State()), old(bullets), hits, config.screenWidth);
      SweepKeepsSurvivors(old(State()), old(bullets), hits, config.screenWidth);
      gameOver := exists i :: 0 <= i < |enemies| && shipHits(enemies[i]);
    }
  }
}

# Battleship board: a verified model of the game-state core

This project models the deterministic core of the `Board` view of the Battleship arcade game
(`project_template/battleship/board.py`). The board is the game's controller. It keeps four
movement-key flags and turns them into the player ship's velocity on every tick. It spawns a wave of
size-4 enemies when a round starts. On every tick it sweeps the bullets against the enemies, and a
destroyed enemy splits into three smaller ones until the smallest size is cleared. Each destruction
scores a point and reports one event to the score display.

The model has four modules, in four files:

- `Enemies` (`enemies.dfy`): the enemy value (size tier and centre) and the splitting rule.
  `Children(e)` is the three enemies one tier lower at the parent's centre, and `SplitCues` is the
  sounds a split plays. `Weight(size)` is the number of destructions it takes to clear an enemy of
  that size and all its descendants (1, 4, 13, 40). `Potential` sums the weights of a list of enemies.
- `Intent` (`intent.dfy`): the W/S/A/D flags as a `Held` value, what a key-down or key-up does to
  them, and the per-axis velocity rule.
- `Arena` (`arena.dfy`): the part of the board that destroying enemies changes, as a `Tally` value.
  It holds the enemy list, the score, the score display's two counters, and the log of sounds played.
  On top of it sit the specification functions:
  - `Split`, the splitter;
  - `Destroy` and `Run`, any order of destructions;
  - `Strike`, one bullet against the enemy list;
  - `Sweep`, the bullet loop of one tick;
  - `SweepAsWritten`, the bullet loop as the source iterates it (see Findings).
- `Battleship` (`board.dfy`): the `Board` class, whose fields are the source's fields.
  - Its methods change them step by step, as the source does. `for` loops append the children
    and the spawned enemies, and `while` loops walk the bullets and enemies and remove them by position.
  - The one exception is the bullet loop. The source walks the live bullet list. `SweepBullets`
    walks the bullets present when the tick starts, which is the corrected behaviour of the Findings row.
  - Each method is proved against the `Arena` and `Intent` function that specifies it.

The central invariant is that destroying enemies never changes score plus `Potential(enemies)`.
This holds for a single destruction, a bullet's strike, and a tick's whole sweep. Every destruction
adds one point and takes exactly one destruction off the potential. Only a new round changes the sum:
`OnShow` resets the score and adds 40 to the potential for each spawned enemy. So clearing the board takes
`Potential` destructions in any order, and one size-4 enemy with all its descendants is worth 40 points.

Collision is a relation the caller supplies. `hits(bullet, enemy)` stands for the framework's
bullet-to-enemy hitbox test. `shipHits(enemy)` stands for the test of the player ship against an enemy.
The configuration constants live in a module that is not part of this model, so they are a
`Config` value given to the board's constructor. Spawn positions come from the random number
generator, so `OnShow` picks any point in the spawn box. Its contract holds for every choice.

Where the code and the game's description disagree, the model follows the code, with one exception:
the bullet loop (see Findings and `Battleship.Board.SweepBullets` under Left out).

- The off-screen test compares a bullet's bottom edge with the screen's width, not its height
  (`Arena.Offscreen`, `board.py:180`). `Arena.OffscreenMatchesScreenIffSquare` proves that this test
  agrees with the screen rectangle for every bullet exactly when the screen is square.
- `on_show` keeps the enemies already in the enemy list, because that list is created once in
  `__init__`. It replaces the bullet list, and it resets the score.

## Model

| member | source | states |
|---|---|---|
| Battleship.Board.constructor | project_template/battleship/board.py:44-81 | A new board has no key held, no enemies, no bullets and no score events, and the background music has been played. |
| Battleship.Board.OnShow | project_template/battleship/board.py:91-122 | The score is 0 and the bullet list is empty. The ship is still. When the spawn box is non-empty, or no enemy is to be spawned, exactly the configured number of enemies is appended, each of size 4 and inside the box. Otherwise the position draw fails and nothing is appended. Entries already in the list are unchanged, tiers stay in 1..4, and the potential grows by 40 per spawned enemy. |
| Battleship.Board.OnKeyPress | project_template/battleship/board.py:266-282 | The flags become `Press(old flags, key)`. Nothing other than the four flags may change. |
| Battleship.Board.OnKeyRelease | project_template/battleship/board.py:284-302 | The flags become `Release(old flags, key)`. Nothing other than the four flags may change. |
| Intent.PressTouchesOnlyItsFlag | project_template/battleship/board.py:275-282 | A key-down of W/S/A/D sets that key's flag and leaves the other three as they were. Any other key leaves all four unchanged. |
| Intent.ReleaseTouchesOnlyItsFlag | project_template/battleship/board.py:295-302 | A key-up of W/S/A/D clears that key's flag and leaves the other three. Any other key leaves all four unchanged. |
| Intent.ReleaseUndoesPress | project_template/battleship/board.py:275-302 | Release after press gives the same flags as release alone, so the key's flag ends false. When the key was not held before, release after press restores the flags exactly. |
| Battleship.Board.ResolveVelocity | project_template/battleship/board.py:148-159 | The ship's vertical velocity is `Vertical(flags, speed)` and its horizontal velocity is `Horizontal(flags, speed)`. |
| Intent.Axis | project_template/battleship/board.py:149-159 | An axis velocity is always `+speed`, `-speed` or 0. |
| Intent.AxisCases | project_template/battleship/board.py:152-159 | For a positive speed, the velocity is `+speed` iff only the positive key is held. It is `-speed` iff only the negative key is held, and 0 iff both or neither are held. |
| Intent.AxisAntisymmetric | project_template/battleship/board.py:152-159 | Exchanging an axis's two keys negates its velocity. |
| Intent.HoldUpThenDown | project_template/battleship/board.py:152-155 | Holding W and then S stops vertical motion. Releasing S then moves the ship up at full speed. |
| Battleship.Board.SplitEnemy | project_template/battleship/board.py:192-264 | The board state after a split is `Split(old state, e)`. |
| Battleship.Board.AppendChildren | project_template/battleship/board.py:206-218 | The loop appends the child three times and plays its sound three times, in the same order. |
| Arena.SplitRule | project_template/battleship/board.py:201-264 | A split adds 1 to the score whatever the size. It appends three enemies for tiers 4/3/2 and none otherwise. Each appended enemy is one tier lower at the parent's centre, and entries already in the list are unchanged. For a tier in 1..4 exactly one of the basic and final counters goes up, and neither for any other size. The final counter goes up iff the tier is 1. |
| Enemies.ChildrenValid | project_template/battleship/board.py:215-251 | The children of any enemy have tiers in 1..3, and so in 1..4. |
| Enemies.WeightValues | project_template/battleship/board.py:205-264 | Clearing an enemy of tier 1, 2, 3 or 4 with all its descendants takes 1, 4, 13 or 40 destructions. |
| Enemies.PotentialOfChildren | project_template/battleship/board.py:203-257 | The children's potential is the parent's weight minus one. |
| Enemies.PotentialRemove | project_template/battleship/board.py:176 | Removing the enemy at a position lowers the potential by exactly that enemy's weight. |
| Arena.DestroyConserves | project_template/battleship/board.py:175-176 | Splitting and removing an enemy adds 1 point and lowers the potential by exactly 1. |
| Arena.DestroyKeepsTiers | project_template/battleship/board.py:175-176 | Splitting and removing an enemy keeps every tier in 1..4. |
| Arena.ClearingScoresPotential | project_template/battleship/board.py:174-176 | Any sequence of destructions that clears the board has exactly `Potential` steps and scores exactly `Potential` points. |
| Arena.ClearingIsPossible | project_template/battleship/board.py:174-176 | Always destroying the first enemy clears any board, after `Potential` steps. |
| Arena.ClearingTierFourScoresForty | project_template/battleship/board.py:121 | A single spawned size-4 enemy and all its descendants take 40 destructions to clear and score 40 points, in any order. |
| Arena.SplitAll | project_template/battleship/board.py:174-175 | Splitting a list of enemies in turn adds one point per enemy. |
| Battleship.Board.StrikeWith | project_template/battleship/board.py:171-177 | The board state after one bullet's collisions, and whether the bullet is spent, are `Strike(old state, bullet)`. |
| Arena.StrikeConserves | project_template/battleship/board.py:171-177 | One bullet scores one point per enemy it collides with, and score plus potential is unchanged. |
| Arena.StrikeSpentIff | project_template/battleship/board.py:171-177 | The bullet is spent iff it collides with some enemy on the list. |
| Arena.StrikeLeavesNoTarget | project_template/battleship/board.py:171-177 | After the strike the list starts with the enemies the bullet missed, in their old order, and the bullet collides with none of them. After them come the children of the struck enemies. |
| Arena.StrikeKeepsTiers | project_template/battleship/board.py:171-177 | A strike keeps every tier in 1..4. |
| Arena.StruckMissedPartition | project_template/battleship/board.py:171 | The colliding and the non-colliding enemies together are as many as the list, and hold its whole potential. |
| Arena.StruckMissedMultiset | project_template/battleship/board.py:171 | The colliding and the non-colliding enemies together hold every enemy of the list, as often as the list does. |
| Arena.StruckEmptyIff | project_template/battleship/board.py:171 | A bullet collides with nothing iff no enemy of the list satisfies the collision relation. |
| Arena.OffspringPotential | project_template/battleship/board.py:205-257 | The children of a list of struck enemies are worth one destruction less per parent, and their tiers are valid. |
| Arena.OffscreenMatchesScreenIffSquare | project_template/battleship/board.py:180 | The source's off-screen test, which compares the bottom edge with the width, agrees with the true screen rectangle for every well-formed bullet (left at most right, bottom at most top) exactly when width equals height, on a screen of non-negative size. |
| Battleship.Board.SweepBullets | project_template/battleship/board.py:169-181 | The board state and bullet list after the bullet loop are `Sweep(old state, old bullets)`. |
| Arena.SweepEffect | project_template/battleship/board.py:169-181 | After the sweep, score plus potential is unchanged, the score has not gone down, and tiers stay in 1..4. Every bullet that stays was there before and passes the source's on-screen test. |
| Arena.SweepSurvivorsStruckNothing | project_template/battleship/board.py:170-181 | Every bullet that stays is one of the tick's bullets that struck nothing on its turn and passed the on-screen test. |
| Arena.SweepKeepsSurvivors | project_template/battleship/board.py:170-181 | Every bullet of the tick that struck nothing on its turn and passed the on-screen test stays. |
| Arena.SweepAsWrittenSkipsABullet | project_template/battleship/board.py:170-181 | Walking the live bullet list while removing from it leaves an off-screen bullet in place. The sweep over the tick's bullets removes it. |
| Battleship.Board.OnUpdate | project_template/battleship/board.py:140-188 | One tick sets the ship's velocity from the flags and runs the bullet sweep. Score plus potential is unchanged and tiers stay in 1..4. A bullet stays iff it is one of the tick's bullets that struck nothing on its turn and is on screen by the source's test. The round is over iff some enemy touches the ship. |
| Battleship.Board.OnMousePress | project_template/battleship/board.py:317-350 | A click appends one bullet to the bullet list. |

## Left out

- Rendering (`on_draw`), the background colour, and asset paths and image loading: drawing and file I/O.
- Sound loading and playback: sounds are recorded in order as a log of cues and never played.
- The random velocity, spin and angle draws for spawned and split enemies: floating-point values that no
  modelled property depends on. Enemies carry only their tier and centre.
- The spawn position draw (`random.randrange`): any point of the spawn box may be chosen.
- `on_mouse_press`'s aiming maths (`atan2`, `cos`, `sin`, bullet speed): floating point. The caller
  supplies the new bullet's edges.
- The framework's hitbox collision test: it is a foreign library call, so collision is a relation
  passed in by the caller. The model takes the colliding enemies in list order (`Struck`). That order
  fixes the order in which children are appended and hit sounds are logged. The source uses whatever
  order the framework's collision call returns.
- `Sprite.update` moving the ship, bullets and enemies each tick: foreign position integration.
  Positions are integers and stay where they are put, and the sweep sees the bullets' edges as given.
- The ship sprite and its position, and the unused `ship_list` and `enemy_list`: nothing modelled depends on them.
- The game-over view switch and the final score handed to it: view switching. `OnUpdate` only reports
  whether the round is over.
- The `Score` class: it is not part of this model. It is kept as its two counters, one per event kind.
- `constants.py`: it is not part of this model. Its values are a `Config` parameter.
- Battleship.Board.constructor: `__init__` never sets the score (`on_show` does), yet the model's constructor starts it at 0.
- Battleship.Board.OnShow: a failing position draw raises an error in the source. The model returns `false` instead,
  with the score, bullets and velocity already reset and no enemy appended.
- Battleship.Board.SweepBullets: the source walks the live bullet list, which skips the bullet after a
  removed one (see Findings). The class instead walks the bullets present at the start of the tick,
  which is the corrected behaviour. The as-written walk is modelled only as the value
  `Arena.SweepAsWritten`.
- Sprite identity: the model removes enemies and bullets by list position, which is what
  `remove_from_sprite_lists` does for the sprite that is there.

## Findings

| source | as written | input that shows it | evidently intended | confidence | as-written member | corrected member |
|---|---|---|---|---|---|---|
| project_template/battleship/board.py:170-181 | The bullet loop walks the live bullet list and removes bullets from it during the walk. The bullet after a removed one moves into the freed place and is not looked at on this tick. | No enemies on the board and two bullets wholly left of the screen (left -20, right -10). The first is removed. The second is passed over and stays for the tick. | Every bullet present at the start of the tick is looked at once, so both off-screen bullets are removed. | medium; not executed; assumes the framework's sprite list iterates its own backing list | Arena.SweepAsWritten, Arena.SweepAsWrittenSkipsABullet | Arena.Sweep, Arena.SweepEffect (used by Battleship.Board.SweepBullets) |

/** The board's bookkeeping as values: splitting, clearing, and the per-tick bullet sweep. */
module Arena {
  import opened Enemies

  datatype Option<T> = None | Some(value: T)

  /** A bullet sprite, by the four edges of its hitbox. */
  datatype Bullet = Bullet(left: int, right: int, bottom: int, top: int)

  /** The state that destroying enemies changes: the enemy list, the board's own score, the
      score collaborator's basic and final counters, and the log of sounds played. */
  datatype Tally = Tally(enemies: seq<Enemy>, score: int, basic: nat, final: nat, cues: seq<Cue>)

  /** One call of the splitter on `e`: a point, the children appended, one score event, the sounds. */
  function Split(t: Tally, e: Enemy): Tally {
    Tally(t.enemies + Children(e),
          t.score + 1,
          if Splits(e.size) then t.basic + 1 else t.basic,
          if e.size == 1 then t.final + 1 else t.final,
          t.cues + SplitCues(e.size))
  }

  /** The splitting rule in the board's own terms: one point whatever the size; three children one
      tier lower at the parent's centre for tiers 4, 3 and 2 and none otherwise; the entries already
      in the list untouched; exactly one of the two score events for a tier in 1..4 and neither for
      any other size. */
  lemma SplitRule(t: Tally, e: Enemy)
    ensures Split(t, e).score == t.score + 1
    ensures |Split(t, e).enemies| == |t.enemies| + (if Splits(e.size) then 3 else 0)
    ensures Split(t, e).enemies[..|t.enemies|] == t.enemies
    ensures forall i :: |t.enemies| <= i < |Split(t, e).enemies| ==>
              Split(t, e).enemies[i] == Enemy(e.size - 1, e.x, e.y)
    ensures (Split(t, e).basic - t.basic) + (Split(t, e).final - t.final) == (if IsTier(e.size) then 1 else 0)
    ensures Split(t, e).final == t.final + 1 <==> e.size == 1
  {
  }

  /** Splitting the enemy at index `i` and removing it from the list. */
  function Destroy(t: Tally, i: nat): Tally
    requires i < |t.enemies|
  {
    var e := t.enemies[i];
    Split(t, e).(enemies := t.enemies[..i] + t.enemies[i + 1..] + Children(e))
  }

  /** Each destruction scores one point and lowers the potential by one, so the sum of the two never changes. */
  lemma DestroyConserves(t: Tally, i: nat)
    requires i < |t.enemies|
    ensures Destroy(t, i).score == t.score + 1
    ensures Potential(Destroy(t, i).enemies) + 1 == Potential(t.enemies)
  {
    var e := t.enemies[i];
    var rest := t.enemies[..i] + t.enemies[i + 1..];
    PotentialAppend(rest, Children(e));
    PotentialRemove(t.enemies, i);
    PotentialOfChildren(e);
  }

  lemma DestroyKeepsTiers(t: Tally, i: nat)
    requires i < |t.enemies| && TiersValid(t.enemies)
    ensures TiersValid(Destroy(t, i).enemies)
  {
    var s := t.enemies;
    TiersValidAppend(s[..i], [s[i]] + s[i + 1..]);
    assert s == s[..i] + ([s[i]] + s[i + 1..]);
    TiersValidAppend([s[i]], s[i + 1..]);
    TiersValidAppend(s[..i], s[i + 1..]);
    ChildrenValid(s[i]);
    TiersValidAppend(s[..i] + s[i + 1..], Children(s[i]));
  }

  /** Destroying the enemies at the listed indices, one after the other; None if an index is out of range. */
  function Run(t: Tally, plan: seq<nat>): Option<Tally>
    decreases |plan|
  {
    if plan == [] then Some(t)
    else if plan[0] < |t.enemies| then Run(Destroy(t, plan[0]), plan[1..])
    else None
  }

  /** Whatever the order, clearing the board takes exactly `Potential` destructions and scores that many points. */
  lemma {:induction false} ClearingScoresPotential(t: Tally, plan: seq<nat>)
    requires Run(t, plan).Some? && Run(t, plan).value.enemies == []
    ensures Run(t, plan).value.score == t.score + Potential(t.enemies)
    ensures |plan| == Potential(t.enemies)
    decreases |plan|
  {
    if plan != [] {
      DestroyConserves(t, plan[0]);
      ClearingScoresPotential(Destroy(t, plan[0]), plan[1..]);
    }
  }

  /** Always destroying the first enemy clears the board after `Potential` steps. */
  lemma {:induction false} ClearingIsPossible(t: Tally)
    ensures Run(t, seq(Potential(t.enemies), _ => 0)).Some?
    ensures Run(t, seq(Potential(t.enemies), _ => 0)).value.enemies == []
    decreases Potential(t.enemies)
  {
    var n := Potential(t.enemies);
    PotentialAtLeastLength(t.enemies);
    if n > 0 {
      var plan: seq<nat> := seq(n, _ => 0);
      DestroyConserves(t, 0);
      var t' := Destroy(t, 0);
      ClearingIsPossible(t');
      assert plan[1..] == seq(Potential(t'.enemies), _ => 0);
    }
  }

  /** A single tier-4 enemy and all its descendants are worth 40 points, in whatever order they are shot. */
  lemma ClearingTierFourScoresForty(t: Tally, plan: seq<nat>)
    requires |t.enemies| == 1 && t.enemies[0].size == 4
    requires Run(t, plan).Some? && Run(t, plan).value.enemies == []
    ensures Run(t, plan).value.score == t.score + 40
    ensures |plan| == 40
  {
    ClearingScoresPotential(t, plan);
    assert t.enemies == [t.enemies[0]];
    PotentialSingleton(t.enemies[0]);
    WeightValues();
  }

  /** The enemies of `es` that bullet `b` collides with, in list order. */
  function Struck(b: Bullet, es: seq<Enemy>, hits: (Bullet, Enemy) -> bool): seq<Enemy>
    decreases |es|
  {
    if es == [] then []
    else Struck(b, es[..|es| - 1], hits) + (if hits(b, es[|es| - 1]) then [es[|es| - 1]] else [])
  }

  /** The enemies of `es` that bullet `b` does not collide with, in list order. */
  function Missed(b: Bullet, es: seq<Enemy>, hits: (Bullet, Enemy) -> bool): seq<Enemy>
    decreases |es|
  {
    if es == [] then []
    else Missed(b, es[..|es| - 1], hits) + (if hits(b, es[|es| - 1]) then [] else [es[|es| - 1]])
  }

  /** All children of the enemies in `es`, in order. */
  function Offspring(es: seq<Enemy>): seq<Enemy>
    decreases |es|
  {
    if es == [] then [] else Offspring(es[..|es| - 1]) + Children(es[|es| - 1])
  }

  /** Splitting each enemy of `es` in turn: one point per enemy. */
  function SplitAll(t: Tally, es: seq<Enemy>): (r: Tally)
    ensures r.score == t.score + |es|
    decreases |es|
  {
    if es == [] then t else Split(SplitAll(t, es[..|es| - 1]), es[|es| - 1])
  }

  /** A strike that has looked at the first `j` enemies of `es`: those it collided with are split
      and gone, the rest of the list is still to be looked at. */
  function StrikeUpTo(t: Tally, b: Bullet, es: seq<Enemy>, j: nat, hits: (Bullet, Enemy) -> bool): Tally
    requires j <= |es|
  {
    var struck := Struck(b, es[..j], hits);
    SplitAll(t, struck).(enemies := Missed(b, es[..j], hits) + es[j..] + Offspring(struck))
  }

  lemma StrikeUpToStart(t: Tally, b: Bullet, hits: (Bullet, Enemy) -> bool)
    ensures StrikeUpTo(t, b, t.enemies, 0, hits) == t
  {
    assert t.enemies[..0] == [];
  }

  lemma StrikeUpToEnd(t: Tally, b: Bullet, hits: (Bullet, Enemy) -> bool)
    ensures StrikeUpTo(t, b, t.enemies, |t.enemies|, hits) == Strike(t, b, hits).0
    ensures Strike(t, b, hits).1 == (Struck(b, t.enemies[..|t.enemies|], hits) != [])
  {
    assert t.enemies[..|t.enemies|] == t.enemies;
  }

  /** The enemy a strike looks at next sits, in the live list, just after the ones it has missed; and
      the colliding and missed prefixes grow by that enemy. */
  lemma StrikeUpToAt(t: Tally, b: Bullet, es: seq<Enemy>, j: nat, hits: (Bullet, Enemy) -> bool)
    requires j < |es|
    ensures var u := StrikeUpTo(t, b, es, j, hits);
      var k := |Missed(b, es[..j], hits)|;
      && k < |u.enemies| && u.enemies[k] == es[j]
      && Struck(b, es[..j + 1], hits) == Struck(b, es[..j], hits) + (if hits(b, es[j]) then [es[j]] else [])
      && Missed(b, es[..j + 1], hits) == Missed(b, es[..j], hits) + (if hits(b, es[j]) then [] else [es[j]])
  {
    var front := Missed(b, es[..j], hits);
    var live := StrikeUpTo(t, b, es, j, hits).enemies;
    assert live == front + es[j..] + Offspring(Struck(b, es[..j], hits));
    assert live[|front|] == es[j..][0];
    assert es[..j + 1][..j] == es[..j];
  }

  /** Looking at one more enemy that the bullet misses changes nothing. */
  lemma StrikeUpToMiss(t: Tally, b: Bullet, es: seq<Enemy>, j: nat, hits: (Bullet, Enemy) -> bool)
    requires j < |es| && !hits(b, es[j])
    ensures StrikeUpTo(t, b, es, j + 1, hits) == StrikeUpTo(t, b, es, j, hits)
  {
    assert es[..j + 1][..j] == es[..j];
    var struck, front := Struck(b, es[..j], hits), Missed(b, es[..j], hits);
    assert Struck(b, es[..j + 1], hits) == struck;
    assert Missed(b, es[..j + 1], hits) == front + [es[j]];
    assert es[j..] == [es[j]] + es[j + 1..];
    assert front + [es[j]] + es[j + 1..] == front + es[j..];
  }

  /** Looking at one more enemy that the bullet collides with: it is split, then removed from the
      position it holds in the live list. */
  lemma StrikeUpToHit(t: Tally, b: Bullet, es: seq<Enemy>, j: nat, hits: (Bullet, Enemy) -> bool)
    requires j < |es| && hits(b, es[j])
    ensures var s := Split(StrikeUpTo(t, b, es, j, hits), es[j]);
      var k := |Missed(b, es[..j], hits)|;
      k < |s.enemies| &&
      StrikeUpTo(t, b, es, j + 1, hits) == s.(enemies := s.enemies[..k] + s.enemies[k + 1..])
  {
    assert es[..j + 1][..j] == es[..j];
    var struck, front := Struck(b, es[..j], hits), Missed(b, es[..j], hits);
    var struck' := struck + [es[j]];
    assert Struck(b, es[..j + 1], hits) == struck';
    assert Missed(b, es[..j + 1], hits) == front;
    assert struck'[..|struck|] == struck;
    var u, v := StrikeUpTo(t, b, es, j, hits), StrikeUpTo(t, b, es, j + 1, hits);
    var s := Split(u, es[j]);
    assert es[j..] == [es[j]] + es[j + 1..];
    RemoveStruck(front, es[j], es[j + 1..], Offspring(struck), Children(es[j]));
    assert v.enemies == s.enemies[..|front|] + s.enemies[|front| + 1..];
    assert v.score == s.score && v.basic == s.basic && v.final == s.final && v.cues == s.cues;
  }

  lemma RemoveStruck(front: seq<Enemy>, e: Enemy, back: seq<Enemy>, born: seq<Enemy>, children: seq<Enemy>)
    ensures var live := front + ([e] + back) + born + children;
      live[..|front|] + live[|front| + 1..] == front + back + (born + children)
  {
    var live := front + ([e] + back) + born + children;
    assert live[..|front|] == front;
    assert live[|front| + 1..] == back + born + children;
  }

  /** The strike as the board runs it: it walks the enemies that were on the list when it started,
      `k` being the position in the live list of the enemy at `j`; a struck enemy is split and then
      removed from that position. */
  ghost function StrikeLoop(t: Tally, b: Bullet, pool: seq<Enemy>, j: nat, k: nat, hits: (Bullet, Enemy) -> bool): Tally
    requires j <= |pool|
    decreases |pool| - j
  {
    if j == |pool| then t
    else if hits(b, pool[j]) then
      var s := Split(t, pool[j]);
      var live := if k < |s.enemies| then s.enemies[..k] + s.enemies[k + 1..] else s.enemies;
      StrikeLoop(s.(enemies := live), b, pool, j + 1, k, hits)
    else StrikeLoop(t, b, pool, j + 1, k + 1, hits)
  }

  /** Running the rest of the walk from any point of it ends in the strike's result. */
  lemma {:induction false} StrikeLoopFinishes(t: Tally, b: Bullet, j: nat, hits: (Bullet, Enemy) -> bool)
    requires j <= |t.enemies|
    ensures StrikeLoop(StrikeUpTo(t, b, t.enemies, j, hits), b, t.enemies, j, |Missed(b, t.enemies[..j], hits)|, hits)
            == Strike(t, b, hits).0
    decreases |t.enemies| - j
  {
    var es := t.enemies;
    if j == |es| {
      StrikeUpToEnd(t, b, hits);
    } else {
      StrikeUpToAt(t, b, es, j, hits);
      if hits(b, es[j]) {
        StrikeUpToHit(t, b, es, j, hits);
      } else {
        StrikeUpToMiss(t, b, es, j, hits);
      }
      StrikeLoopFinishes(t, b, j + 1, hits);
    }
  }

  /** The walk, started on the whole list, computes the strike. */
  lemma StrikeLoopComputesStrike(t: Tally, b: Bullet, hits: (Bullet, Enemy) -> bool)
    ensures StrikeLoop(t, b, t.enemies, 0, 0, hits) == Strike(t, b, hits).0
  {
    StrikeLoopFinishes(t, b, 0, hits);
    StrikeUpToStart(t, b, hits);
    assert t.enemies[..0] == [];
  }

  /** Struck and Missed split the list: between them they hold as many enemies as the list, and its whole potential. */
  lemma {:induction false} StruckMissedPartition(b: Bullet, es: seq<Enemy>, hits: (Bullet, Enemy) -> bool)
    ensures |Struck(b, es, hits)| + |Missed(b, es, hits)| == |es|
    ensures Potential(Struck(b, es, hits)) + Potential(Missed(b, es, hits)) == Potential(es)
    decreases |es|
  {
    if es != [] {
      var front, last := es[..|es| - 1], es[|es| - 1];
      assert es == front + [last];
      StruckMissedPartition(b, front, hits);
      PotentialSingleton(last);
      PotentialAppend(front, [last]);
      if hits(b, last) {
        assert Missed(b, es, hits) == Missed(b, front, hits) + [] == Missed(b, front, hits);
        assert Struck(b, es, hits) == Struck(b, front, hits) + [last];
        PotentialAppend(Struck(b, front, hits), [last]);
      } else {
        assert Struck(b, es, hits) == Struck(b, front, hits) + [] == Struck(b, front, hits);
        assert Missed(b, es, hits) == Missed(b, front, hits) + [last];
        PotentialAppend(Missed(b, front, hits), [last]);
      }
    }
  }

  /** Struck and Missed between them hold every enemy of the list, as often as the list does. */
  lemma {:induction false} StruckMissedMultiset(b: Bullet, es: seq<Enemy>, hits: (Bullet, Enemy) -> bool)
    ensures multiset(Struck(b, es, hits)) + multiset(Missed(b, es, hits)) == multiset(es)
    decreases |es|
  {
    if es != [] {
      var front, last := es[..|es| - 1], es[|es| - 1];
      assert es == front + [last];
      StruckMissedMultiset(b, front, hits);
    }
  }

  /** Struck holds only colliding enemies of the list, Missed only the others, and both keep valid tiers. */
  lemma {:induction false} StruckMissedMembers(b: Bullet, es: seq<Enemy>, hits: (Bullet, Enemy) -> bool)
    ensures TiersValid(es) ==> TiersValid(Struck(b, es, hits)) && TiersValid(Missed(b, es, hits))
    ensures forall e :: e in Missed(b, es, hits) ==> e in es && !hits(b, e)
    ensures forall e :: e in Struck(b, es, hits) ==> e in es && hits(b, e)
    decreases |es|
  {
    if es != [] {
      var front, last := es[..|es| - 1], es[|es| - 1];
      assert es == front + [last];
      StruckMissedMembers(b, front, hits);
      TiersValidAppend(front, [last]);
      TiersValidAppend(Struck(b, front, hits), [last]);
      TiersValidAppend(Missed(b, front, hits), [last]);
    }
  }

  /** A bullet strikes nothing exactly when it collides with no enemy of the list. */
  lemma {:induction false} StruckEmptyIff(b: Bullet, es: seq<Enemy>, hits: (Bullet, Enemy) -> bool)
    ensures Struck(b, es, hits) == [] <==> forall i :: 0 <= i < |es| ==> !hits(b, es[i])
    decreases |es|
  {
    if es != [] {
      var front, last := es[..|es| - 1], es[|es| - 1];
      StruckEmptyIff(b, front, hits);
      assert forall i :: 0 <= i < |front| ==> front[i] == es[i];
    }
  }

  /** The children of a list of enemies are worth one destruction less per parent, and have valid tiers. */
  lemma {:induction false} OffspringPotential(es: seq<Enemy>)
    ensures Potential(Offspring(es)) + |es| == Potential(es)
    ensures TiersValid(Offspring(es))
    decreases |es|
  {
    if es != [] {
      var front, last := es[..|es| - 1], es[|es| - 1];
      OffspringPotential(front);
      PotentialAppend(Offspring(front), Children(last));
      PotentialOfChildren(last);
      ChildrenValid(last);
      TiersValidAppend(Offspring(front), Children(last));
    }
  }

  /** One bullet against the current enemy list: every enemy it collides with is split and
      removed; the flag says whether it struck anything (and so is spent). */
  function Strike(t: Tally, b: Bullet, hits: (Bullet, Enemy) -> bool): (Tally, bool) {
    var hit := Struck(b, t.enemies, hits);
    var s := SplitAll(t, hit);
    (s.(enemies := Missed(b, t.enemies, hits) + Offspring(hit)), hit != [])
  }

  /** A strike scores one point per enemy the bullet collides with, and score plus potential is unchanged. */
  lemma StrikeConserves(t: Tally, b: Bullet, hits: (Bullet, Enemy) -> bool)
    ensures Strike(t, b, hits).0.score == t.score + |Struck(b, t.enemies, hits)|
    ensures Strike(t, b, hits).0.score + Potential(Strike(t, b, hits).0.enemies) == t.score + Potential(t.enemies)
  {
    var hit, miss := Struck(b, t.enemies, hits), Missed(b, t.enemies, hits);
    StruckMissedPartition(b, t.enemies, hits);
    OffspringPotential(hit);
    PotentialAppend(miss, Offspring(hit));
  }

  /** The bullet is spent exactly when it collides with some enemy of the list. */
  lemma StrikeSpentIff(t: Tally, b: Bullet, hits: (Bullet, Enemy) -> bool)
    ensures Strike(t, b, hits).1 <==> exists i :: 0 <= i < |t.enemies| && hits(b, t.enemies[i])
  {
    StruckEmptyIff(b, t.enemies, hits);
  }

  /** The enemies that were on the list before and are still there lead the new list, in order, and the
      bullet collides with none of them; every new enemy is a child of one it struck. */
  lemma StrikeLeavesNoTarget(t: Tally, b: Bullet, hits: (Bullet, Enemy) -> bool)
    ensures var r := Strike(t, b, hits).0;
      var miss := Missed(b, t.enemies, hits);
      && r.enemies == miss + Offspring(Struck(b, t.enemies, hits))
      && (forall i :: 0 <= i < |miss| ==> miss[i] in t.enemies && !hits(b, r.enemies[i]))
  {
    var miss := Missed(b, t.enemies, hits);
    StruckMissedMembers(b, t.enemies, hits);
    var r := Strike(t, b, hits).0;
    assert forall i :: 0 <= i < |miss| ==> r.enemies[i] == miss[i];
  }

  /** A strike keeps every tier in 1..4. */
  lemma StrikeKeepsTiers(t: Tally, b: Bullet, hits: (Bullet, Enemy) -> bool)
    requires TiersValid(t.enemies)
    ensures TiersValid(Strike(t, b, hits).0.enemies)
  {
    var hit, miss := Struck(b, t.enemies, hits), Missed(b, t.enemies, hits);
    StruckMissedMembers(b, t.enemies, hits);
    OffspringPotential(hit);
    TiersValidAppend(miss, Offspring(hit));
  }

  /** The test the board uses to drop a bullet that has left the screen. As in the source, the bottom
      edge is compared with the screen's width. */
  predicate Offscreen(b: Bullet, width: int) {
    b.bottom > width || b.top < 0 || b.right < 0 || b.left > width
  }

  /** A bullet lies wholly outside the screen rectangle [0, width] x [0, height]. */
  predicate OutsideScreen(b: Bullet, width: int, height: int) {
    b.bottom > height || b.top < 0 || b.right < 0 || b.left > width
  }

  /** A hitbox whose edges are in order. */
  predicate WellFormed(b: Bullet) {
    b.left <= b.right && b.bottom <= b.top
  }

  /** On a screen of non-negative size, the board's test agrees with the screen rectangle for every
      well-formed bullet exactly when the screen is square. */
  lemma OffscreenMatchesScreenIffSquare(width: int, height: int)
    requires width >= 0 && height >= 0
    ensures (forall b :: WellFormed(b) ==> Offscreen(b, width) == OutsideScreen(b, width, height)) <==> width == height
  {
    if width != height {
      var low := if width < height then width else height;
      var b := Bullet(0, 0, low + 1, low + 1);
      assert WellFormed(b) && Offscreen(b, width) != OutsideScreen(b, width, height);
    }
  }

  /** The sweep over the bullets present at the start of the tick, each visited once: the new tally
      and the bullets that stay. */
  function Sweep(t: Tally, bs: seq<Bullet>, hits: (Bullet, Enemy) -> bool, width: int): (Tally, seq<Bullet>)
    decreases |bs|
  {
    if bs == [] then (t, [])
    else
      var (t1, kept) := Sweep(t, bs[..|bs| - 1], hits, width);
      var b := bs[|bs| - 1];
      var (t2, spent) := Strike(t1, b, hits);
      (t2, if spent || Offscreen(b, width) then kept else kept + [b])
  }

  /** After a sweep, score plus potential is unchanged, tiers stay in 1..4, and every bullet that stays
      was there before and is on screen by the board's test. */
  lemma {:induction false} SweepEffect(t: Tally, bs: seq<Bullet>, hits: (Bullet, Enemy) -> bool, width: int)
    ensures var (r, kept) := Sweep(t, bs, hits, width);
      && r.score + Potential(r.enemies) == t.score + Potential(t.enemies)
      && r.score >= t.score
      && (TiersValid(t.enemies) ==> TiersValid(r.enemies))
      && |kept| <= |bs|
      && (forall b :: b in kept ==> b in bs && !Offscreen(b, width))
    decreases |bs|
  {
    if bs != [] {
      var front, b := bs[..|bs| - 1], bs[|bs| - 1];
      SweepEffect(t, front, hits, width);
      var (t1, kept) := Sweep(t, front, hits, width);
      StrikeConserves(t1, b, hits);
      if TiersValid(t.enemies) {
        StrikeKeepsTiers(t1, b, hits);
      }
      assert forall x :: x in front ==> x in bs;
    }
  }

  /** Whether bullet `i` of `bs` is spent on its turn: it strikes an enemy of the list as the sweep
      has left it after the bullets before it. */
  function SpentOnTurn(t: Tally, bs: seq<Bullet>, i: nat, hits: (Bullet, Enemy) -> bool, width: int): bool
    requires i < |bs|
  {
    Strike(Sweep(t, bs[..i], hits, width).0, bs[i], hits).1
  }

  /** The last bullet's turn: the bullets kept before it, and the last bullet too unless it is spent
      or off screen. */
  lemma SweepLast(t: Tally, bs: seq<Bullet>, hits: (Bullet, Enemy) -> bool, width: int)
    requires bs != []
    ensures var n := |bs| - 1;
      var kept := Sweep(t, bs[..n], hits, width).1;
      Sweep(t, bs, hits, width).1 ==
        if SpentOnTurn(t, bs, n, hits, width) || Offscreen(bs[n], width) then kept else kept + [bs[n]]
  {
  }

  /** A bullet's turn is the same in the whole list and in any prefix that holds it. */
  lemma SpentOnTurnPrefix(t: Tally, bs: seq<Bullet>, n: nat, hits: (Bullet, Enemy) -> bool, width: int)
    requires n <= |bs|
    ensures forall i :: 0 <= i < n ==> SpentOnTurn(t, bs, i, hits, width) == SpentOnTurn(t, bs[..n], i, hits, width)
  {
    forall i | 0 <= i < n
      ensures SpentOnTurn(t, bs, i, hits, width) == SpentOnTurn(t, bs[..n], i, hits, width)
    {
      assert bs[..i] == bs[..n][..i];
    }
  }

  /** A bullet that stays after the sweep is one of the tick's bullets that, on its turn, struck
      nothing and was on screen by the board's test. */
  lemma {:induction false} SweepSurvivorsStruckNothing(t: Tally, bs: seq<Bullet>, hits: (Bullet, Enemy) -> bool, width: int)
    ensures forall b :: b in Sweep(t, bs, hits, width).1 ==>
              exists i :: 0 <= i < |bs| && bs[i] == b && !SpentOnTurn(t, bs, i, hits, width) && !Offscreen(b, width)
    decreases |bs|
  {
    if bs != [] {
      var n := |bs| - 1;
      SweepSurvivorsStruckNothing(t, bs[..n], hits, width);
      SpentOnTurnPrefix(t, bs, n, hits, width);
      SweepLast(t, bs, hits, width);
    }
  }

  /** Every one of the tick's bullets that, on its turn, struck nothing and was on screen by the
      board's test stays after the sweep. */
  lemma {:induction false} SweepKeepsSurvivors(t: Tally, bs: seq<Bullet>, hits: (Bullet, Enemy) -> bool, width: int)
    ensures forall i :: 0 <= i < |bs| && !SpentOnTurn(t, bs, i, hits, width) && !Offscreen(bs[i], width) ==>
              bs[i] in Sweep(t, bs, hits, width).1
    decreases |bs|
  {
    if bs != [] {
      var n := |bs| - 1;
      var front := bs[..n];
      SweepKeepsSurvivors(t, front, hits, width);
      SpentOnTurnPrefix(t, bs, n, hits, width);
      SweepLast(t, bs, hits, width);
      var kept, out := Sweep(t, front, hits, width).1, Sweep(t, bs, hits, width).1;
      forall i | 0 <= i < |bs| && !SpentOnTurn(t, bs, i, hits, width) && !Offscreen(bs[i], width)
        ensures bs[i] in out
      {
        if i < n {
          assert bs[i] == front[i] && !SpentOnTurn(t, front, i, hits, width);
          assert front[i] in kept;
          assert out == kept + [bs[n]] || out == kept;
        } else {
          assert i == n;
          assert out == kept + [bs[n]];
        }
      }
    }
  }

  /** The sweep over one more bullet is the strike of that bullet after the sweep over the ones before it. */
  lemma SweepUnfold(t: Tally, bs: seq<Bullet>, i: nat, hits: (Bullet, Enemy) -> bool, width: int)
    requires i < |bs|
    ensures var prev := Sweep(t, bs[..i], hits, width);
      var struck := Strike(prev.0, bs[i], hits);
      Sweep(t, bs[..i + 1], hits, width) ==
        (struck.0, if struck.1 || Offscreen(bs[i], width) then prev.1 else prev.1 + [bs[i]])
  {
    assert bs[..i + 1][..i] == bs[..i];
  }

  /** The live bullet list, the kept bullets followed by the ones still to visit, with the visited one
      taken out or kept. */
  lemma LiveSplit(kept: seq<Bullet>, bs: seq<Bullet>, i: nat)
    requires i < |bs|
    ensures var live := kept + bs[i..];
      && |kept| < |live|
      && live[..|kept|] + live[|kept| + 1..] == kept + bs[i + 1..]
      && live == (kept + [bs[i]]) + bs[i + 1..]
  {
    var live := kept + bs[i..];
    assert bs[i..] == [bs[i]] + bs[i + 1..];
    assert live[..|kept|] == kept;
    assert live[|kept| + 1..] == bs[i + 1..];
  }

  /** The bullet loop as the source writes it: it walks the live bullet list by position while
      removing from it, so the bullet that follows a removed one moves into the removed one's place
      and is passed over until the next tick. */
  function SweepAsWritten(t: Tally, live: seq<Bullet>, i: nat, hits: (Bullet, Enemy) -> bool, width: int): (Tally, seq<Bullet>)
    decreases |live| - i
  {
    if i >= |live| then (t, live)
    else
      var b := live[i];
      var (t1, spent) := Strike(t, b, hits);
      var next := if spent || Offscreen(b, width) then live[..i] + live[i + 1..] else live;
      SweepAsWritten(t1, next, i + 1, hits, width)
  }

  /** Two bullets off the left edge with no enemies about: the loop as written removes the first and
      keeps the second, although it is off screen too; the sweep over the tick's bullets removes both. */
  lemma SweepAsWrittenSkipsABullet(hits: (Bullet, Enemy) -> bool)
    ensures var t := Tally([], 0, 0, 0, []);
      var gone := Bullet(-20, -10, 100, 110);
      && Offscreen(gone, 800)
      && SweepAsWritten(t, [gone, gone], 0, hits, 800).1 == [gone]
      && Sweep(t, [gone, gone], hits, 800).1 == []
  {
    var t := Tally([], 0, 0, 0, []);
    var gone := Bullet(-20, -10, 100, 110);
    assert Struck(gone, [], hits) == [] && Missed(gone, [], hits) == [] && Offspring([]) == [];
    assert SplitAll(t, []) == t;
    assert Strike(t, gone, hits).1 == false;
    assert Strike(t, gone, hits).0 == t.(enemies := [] + []) == t;
    assert Strike(t, gone, hits) == (t, false);
    assert [gone, gone][..0] + [gone, gone][1..] == [gone];
    assert SweepAsWritten(t, [gone, gone], 0, hits, 800) == SweepAsWritten(t, [gone], 1, hits, 800);
    assert [gone, gone][..1] == [gone] && [gone][..0] == [];
    assert Sweep(t, [gone], hits, 800) == (t, []);
  }
}

/** Enemy sprites, their size tiers and the splitting rule of the board. */
module Enemies {

  /** An enemy sprite as the board sees it: its size tier (`size`) and its centre.
      Velocity, spin and image are left out of the model. */
  datatype Enemy = Enemy(size: int, x: int, y: int)

  /** The sound cues the board plays: the four hit sounds and the background track. */
  datatype Cue = Hit1 | Hit2 | Hit3 | Hit4 | Music

  /** The tiers the spawner and the splitter ever produce. */
  predicate IsTier(size: int) {
    1 <= size <= 4
  }

  /** The tiers whose destruction spawns children. */
  predicate Splits(size: int) {
    2 <= size <= 4
  }

  /** A child of `e`: one tier lower, at the parent's centre. */
  function Shrunk(e: Enemy): Enemy {
    Enemy(e.size - 1, e.x, e.y)
  }

  /** The enemies that destroying `e` appends to the enemy list. */
  function Children(e: Enemy): seq<Enemy> {
    if Splits(e.size) then [Shrunk(e), Shrunk(e), Shrunk(e)] else []
  }

  /** The hit sound of a splitting tier: tier 4 plays the first, tier 3 the second, tier 2 the third. */
  function HitCue(size: int): Cue {
    if size == 4 then Hit1 else if size == 3 then Hit2 else Hit3
  }

  /** The sounds one split plays: the hit sound once per child, or the last hit sound for tier 1. */
  function SplitCues(size: int): seq<Cue> {
    if Splits(size) then [HitCue(size), HitCue(size), HitCue(size)]
    else if size == 1 then [Hit4]
    else []
  }

  /** How many destructions it takes to clear an enemy of this size and all its descendants. */
  function Weight(size: int): nat
    decreases if size > 0 then size else 0
  {
    if Splits(size) then 1 + 3 * Weight(size - 1) else 1
  }

  /** The number of destructions still needed to clear every enemy in `es`. */
  function Potential(es: seq<Enemy>): nat
  {
    if es == [] then 0 else Potential(es[..|es| - 1]) + Weight(es[|es| - 1].size)
  }

  /** Every enemy in `es` has a size tier in 1..4. */
  predicate TiersValid(es: seq<Enemy>) {
    forall i :: 0 <= i < |es| ==> IsTier(es[i].size)
  }

  /** The number of destructions per tier: 1, 4, 13, 40. */
  lemma WeightValues()
    ensures Weight(1) == 1 && Weight(2) == 4 && Weight(3) == 13 && Weight(4) == 40
  {
    assert Weight(2) == 1 + 3 * Weight(1);
    assert Weight(3) == 1 + 3 * Weight(2);
  }

  /** Destroying `e` trades one unit of potential for its children's. */
  lemma PotentialOfChildren(e: Enemy)
    ensures Potential(Children(e)) + 1 == Weight(e.size)
  {
    if Splits(e.size) {
      var c := Shrunk(e);
      var w := Weight(c.size);
      assert [c, c, c][..2] == [c, c] && [c, c][..1] == [c] && [c][..0] == [];
      assert Potential([c]) == w;
      assert Potential([c, c]) == 2 * w;
      assert Potential([c, c, c]) == 3 * w;
    }
  }

  lemma {:induction false} PotentialAppend(a: seq<Enemy>, b: seq<Enemy>)
    ensures Potential(a + b) == Potential(a) + Potential(b)
    decreases |b|
  {
    if b == [] {
      assert a + b == a;
    } else {
      var b' := b[..|b| - 1];
      assert (a + b)[..|a + b| - 1] == a + b';
      PotentialAppend(a, b');
    }
  }

  lemma PotentialSingleton(e: Enemy)
    ensures Potential([e]) == Weight(e.size)
  {
    assert [e][..0] == [];
  }

  /** Removing the enemy at index `i` removes exactly its weight. */
  lemma {:induction false} PotentialRemove(s: seq<Enemy>, i: nat)
    requires i < |s|
    ensures Potential(s[..i] + s[i + 1..]) + Weight(s[i].size) == Potential(s)
    decreases |s|
  {
    var rest := s[..i] + s[i + 1..];
    var init := s[..|s| - 1];
    if i == |s| - 1 {
      assert rest == init;
    } else {
      PotentialRemove(init, i);
      var shorter := init[..i] + init[i + 1..];
      assert rest[..|rest| - 1] == shorter && rest[|rest| - 1] == s[|s| - 1];
      assert init[i] == s[i];
    }
  }

  /** Every enemy is worth at least one destruction, so no potential means no enemies. */
  lemma {:induction false} PotentialAtLeastLength(s: seq<Enemy>)
    ensures |s| <= Potential(s)
    decreases |s|
  {
    if s != [] {
      PotentialAtLeastLength(s[..|s| - 1]);
    }
  }

  /** Whatever the parent's size, its children have tiers in 1..3. */
  lemma ChildrenValid(e: Enemy)
    ensures forall i :: 0 <= i < |Children(e)| ==> 1 <= Children(e)[i].size <= 3
    ensures TiersValid(Children(e))
  {
  }

  lemma TiersValidAppend(a: seq<Enemy>, b: seq<Enemy>)
    ensures TiersValid(a + b) <==> TiersValid(a) && TiersValid(b)
  {
    if TiersValid(a) && TiersValid(b) {
      forall i | 0 <= i < |a + b| ensures IsTier((a + b)[i].size) {
        if i >= |a| { assert (a + b)[i] == b[i - |a|]; }
      }
    }
    if TiersValid(a + b) {
      forall i | 0 <= i < |a| ensures IsTier(a[i].size) {
        assert (a + b)[i] == a[i];
      }
      forall i | 0 <= i < |b| ensures IsTier(b[i].size) {
        assert (a + b)[|a| + i] == b[i];
      }
    }
  }
}

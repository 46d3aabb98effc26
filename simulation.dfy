/** The simulation (src/sim.ts): an append-only list of masses and an
  * `update` step that moves every listed mass's position object by its
  * velocity, in place, in list order.
  *
  * Because masses hold their vectors by reference, the effect of `update`
  * depends on which objects are shared. It is specified exactly, for any
  * sharing, by `AdvanceAll`: a fold over a snapshot of the values of all
  * vector objects involved. The lemmas then say what that fold amounts to
  * when nothing is shared, and when position objects are.
  */
module Simulation {
  import opened Vectors
  import opened Masses

  /** The two vector objects that one mass's step reads and writes. */
  datatype Link = Link(pos: Vec2, vel: Vec2)

  /** The values of some vector objects at one moment. */
  type Store = map<Vec2, V2>

  /** Every object the links name has a value in `store`. */
  predicate Covers(store: Store, links: seq<Link>) {
    forall i :: 0 <= i < |links| ==> links[i].pos in store && links[i].vel in store
  }

  /** `o` is the position object of some link. */
  predicate IsPosition(links: seq<Link>, o: Vec2) {
    exists i :: 0 <= i < |links| && links[i].pos == o
  }

  /** No velocity object is also a position object (of the same mass or another). */
  predicate NoVelocityIsPosition(links: seq<Link>) {
    forall i, j :: 0 <= i < |links| && 0 <= j < |links| ==> links[i].vel != links[j].pos
  }

  /** No two links share a position object. */
  predicate DistinctPositions(links: seq<Link>) {
    forall i, j :: 0 <= i < j < |links| ==> links[i].pos != links[j].pos
  }

  /** One mass's step: its position object takes the sum of its own value
    * and the value its velocity object has at that moment; no other object
    * changes. */
  function Advance(store: Store, link: Link): (r: Store)
    requires link.pos in store && link.vel in store
    ensures r.Keys == store.Keys
    ensures forall o :: o in store && o != link.pos ==> r[o] == store[o]
  {
    store[link.pos := store[link.pos].Add(store[link.vel])]
  }

  /** The loop of `update`: one step per link, in list order, each step
    * seeing the values the earlier steps left. */
  function AdvanceAll(store: Store, links: seq<Link>): (r: Store)
    requires Covers(store, links)
    ensures r.Keys == store.Keys
    decreases |links|
  {
    if links == [] then store
    else
      var n := |links| - 1;
      Advance(AdvanceAll(store, links[..n]), links[n])
  }

  /** The sum of the values of the velocity objects of the links whose
    * position object is `o`, one term per such link. */
  function Pushes(store: Store, links: seq<Link>, o: Vec2): V2
    requires Covers(store, links)
    decreases |links|
  {
    if links == [] then Zero
    else
      var n := |links| - 1;
      Pushes(store, links[..n], o).Add(if links[n].pos == o then store[links[n].vel] else Zero)
  }

  /** Extending the links by one more runs one more step; the loop of
    * `update` goes forward by this. */
  lemma AdvanceAllStep(store: Store, links: seq<Link>, i: nat)
    requires Covers(store, links) && i < |links|
    ensures Covers(store, links[..i]) && Covers(store, links[..i + 1])
    ensures links[i].pos in AdvanceAll(store, links[..i]) && links[i].vel in AdvanceAll(store, links[..i])
    ensures AdvanceAll(store, links[..i + 1]) == Advance(AdvanceAll(store, links[..i]), links[i])
  {
    assert links[..i + 1][..i] == links[..i];
  }

  /** An object that is no link's position keeps its value: the frame of
    * `update` is the position objects. This holds for any sharing. */
  lemma {:induction false} AdvanceAllKeepsNonPositions(store: Store, links: seq<Link>, o: Vec2)
    requires Covers(store, links) && o in store && !IsPosition(links, o)
    ensures AdvanceAll(store, links)[o] == store[o]
    decreases |links|
  {
    if links != [] {
      var n := |links| - 1;
      assert !IsPosition(links[..n], o) by {
        forall i | 0 <= i < n ensures links[..n][i].pos != o {
          assert links[..n][i] == links[i];
        }
      }
      AdvanceAllKeepsNonPositions(store, links[..n], o);
      assert links[n].pos != o;
    }
  }

  /** An object that is no link's position receives no push. */
  lemma {:induction false} PushesOfNonPosition(store: Store, links: seq<Link>, o: Vec2)
    requires Covers(store, links) && !IsPosition(links, o)
    ensures Pushes(store, links, o) == Zero
    decreases |links|
  {
    if links != [] {
      var n := |links| - 1;
      assert !IsPosition(links[..n], o) by {
        forall i | 0 <= i < n ensures links[..n][i].pos != o {
          assert links[..n][i] == links[i];
        }
      }
      PushesOfNonPosition(store, links[..n], o);
      assert links[n].pos != o;
    }
  }

  /** A prefix of links in which no velocity object is a position object
    * has that property too. */
  lemma NoVelocityIsPositionPrefix(links: seq<Link>, n: nat)
    requires NoVelocityIsPosition(links) && n <= |links|
    ensures NoVelocityIsPosition(links[..n])
  {
    forall i, j | 0 <= i < n && 0 <= j < n ensures links[..n][i].vel != links[..n][j].pos {
      assert links[..n][i] == links[i] && links[..n][j] == links[j];
    }
  }

  /** The last step of the fold adds the last link's velocity to its
    * position object, and that velocity still has its old value, because no
    * earlier step writes a velocity object. */
  lemma AdvanceAllLast(store: Store, links: seq<Link>, o: Vec2)
    requires Covers(store, links) && NoVelocityIsPosition(links) && o in store && links != []
    ensures var n := |links| - 1;
      Covers(store, links[..n]) &&
      AdvanceAll(store, links)[o]
      == AdvanceAll(store, links[..n])[o].Add(if links[n].pos == o then store[links[n].vel] else Zero)
  {
    var n := |links| - 1;
    var init, last := links[..n], links[n];
    assert Covers(store, init);
    var before := AdvanceAll(store, init);
    if last.pos == o {
      assert !IsPosition(init, last.vel) by {
        forall i | 0 <= i < n ensures init[i].pos != last.vel {
          assert init[i] == links[i];
        }
      }
      AdvanceAllKeepsNonPositions(store, init, last.vel);
    } else {
      assert AdvanceAll(store, links)[o] == before[o] == before[o].Add(Zero);
    }
  }

  /** When no velocity object is a position object, the velocities do not
    * change during the loop, and each object ends at its old value plus one
    * velocity for every appearance it has as a position: a mass listed
    * twice, or two masses built on one position object, move it twice. */
  lemma {:induction false} AdvanceAllSumsPushes(store: Store, links: seq<Link>, o: Vec2)
    requires Covers(store, links) && NoVelocityIsPosition(links) && o in store
    ensures AdvanceAll(store, links)[o] == store[o].Add(Pushes(store, links, o))
    decreases |links|
  {
    if links == [] {
      assert store[o].Add(Zero) == store[o];
    } else {
      var n := |links| - 1;
      var init, last := links[..n], links[n];
      var push := if last.pos == o then store[last.vel] else Zero;
      NoVelocityIsPositionPrefix(links, n);
      AdvanceAllLast(store, links, o);
      AdvanceAllSumsPushes(store, init, o);
      AddAssociative(store[o], Pushes(store, init, o), push);
    }
  }

  /** With no two position objects shared, the push an object receives
    * through its one appearance is exactly its velocity's value. */
  lemma {:induction false} PushesOfUniquePosition(store: Store, links: seq<Link>, k: nat)
    requires Covers(store, links) && DistinctPositions(links) && k < |links|
    ensures Pushes(store, links, links[k].pos) == store[links[k].vel]
    decreases |links|
  {
    var n := |links| - 1;
    var init, o := links[..n], links[k].pos;
    if k == n {
      assert !IsPosition(init, o) by {
        forall i | 0 <= i < n ensures init[i].pos != o {
          assert init[i] == links[i];
        }
      }
      PushesOfNonPosition(store, init, o);
    } else {
      assert DistinctPositions(init) by {
        forall i, j | 0 <= i < j < n ensures init[i].pos != init[j].pos {
          assert init[i] == links[i] && init[j] == links[j];
        }
      }
      assert init[k] == links[k];
      PushesOfUniquePosition(store, init, k);
      assert links[n].pos != o;
    }
  }

  /** The property `update` is written for: when no position object is shared
    * and no velocity object is a position object, every position ends at its
    * old value plus its velocity, and every velocity keeps its value. */
  lemma AdvanceAllUnshared(store: Store, links: seq<Link>, k: nat)
    requires Covers(store, links) && DistinctPositions(links) && NoVelocityIsPosition(links)
    requires k < |links|
    ensures AdvanceAll(store, links)[links[k].pos] == store[links[k].pos].Add(store[links[k].vel])
    ensures AdvanceAll(store, links)[links[k].vel] == store[links[k].vel]
  {
    AdvanceAllSumsPushes(store, links, links[k].pos);
    PushesOfUniquePosition(store, links, k);
    assert !IsPosition(links, links[k].vel);
    AdvanceAllKeepsNonPositions(store, links, links[k].vel);
  }

  /** The same mass listed twice: its position moves by twice its velocity. */
  lemma SameMassTwice(store: Store, link: Link)
    requires link.pos in store && link.vel in store && link.vel != link.pos
    ensures AdvanceAll(store, [link, link])[link.pos]
         == store[link.pos].Add(store[link.vel].MulScalar(2.0))
  {
    var links := [link, link];
    AdvanceAllSumsPushes(store, links, link.pos);
    assert links[..1] == [link] && links[..1][..0] == [];
    assert Pushes(store, links[..1], link.pos) == Zero.Add(store[link.vel]);
  }

  /** Two masses built on one position object: it moves by both velocities. */
  lemma SharedPosition(store: Store, p: Vec2, v1: Vec2, v2: Vec2)
    requires p in store && v1 in store && v2 in store && v1 != p && v2 != p
    ensures AdvanceAll(store, [Link(p, v1), Link(p, v2)])[p]
         == store[p].Add(store[v1]).Add(store[v2])
  {
    var links := [Link(p, v1), Link(p, v2)];
    AdvanceAllSumsPushes(store, links, p);
    assert links[..1] == [Link(p, v1)] && links[..1][..0] == [];
    assert Pushes(store, links[..1], p) == Zero.Add(store[v1]);
  }

  /** When one mass's velocity object is another mass's position object,
    * the list order decides the outcome: listed after that mass, it reads
    * the position already moved; listed before, it reads the old one. */
  lemma VelocityIsEarlierPosition(store: Store, p: Vec2, q: Vec2, w: Vec2)
    requires p in store && q in store && w in store && p != q && q != w && p != w
    ensures AdvanceAll(store, [Link(q, w), Link(p, q)])[p] == store[p].Add(store[q].Add(store[w]))
    ensures AdvanceAll(store, [Link(p, q), Link(q, w)])[p] == store[p].Add(store[q])
  {
    var after := [Link(q, w), Link(p, q)];
    assert after[..1] == [Link(q, w)] && after[..1][..0] == [];
    assert AdvanceAll(store, after[..1])[q] == store[q].Add(store[w]);
    assert AdvanceAll(store, after[..1])[p] == store[p];
    var before := [Link(p, q), Link(q, w)];
    assert before[..1] == [Link(p, q)] && before[..1][..0] == [];
    assert AdvanceAll(store, before[..1])[p] == store[p].Add(store[q]);
  }

  /** The position and velocity objects of a list of masses, in list order. */
  ghost function LinksOf(ms: seq<Mass>): (r: seq<Link>)
    reads ms
    ensures |r| == |ms|
    ensures forall i :: 0 <= i < |ms| ==> r[i] == Link(ms[i].pos, ms[i].vel)
  {
    seq(|ms|, i reads ms requires 0 <= i < |ms| => Link(ms[i].pos, ms[i].vel))
  }

  /** The values of some vector objects, as they are now. */
  ghost function Snapshot(vs: set<Vec2>): (r: Store)
    reads vs
    ensures r.Keys == vs
    ensures forall o :: o in vs ==> r[o] == o.View()
  {
    map o | o in vs :: o.View()
  }

  class Sim {
    var masses: seq<Mass>

    /** A new simulation lists no mass. */
    constructor ()
      ensures masses == []
    {
      masses := [];
    }

    /** Appends one mass; the masses already listed keep their places. */
    method AddMass(mass: Mass)
      modifies this
      ensures masses == old(masses) + [mass]
      ensures old(masses) <= masses
    {
      masses := masses + [mass];
    }

    /** Appends several masses in their given order; an empty list changes nothing. */
    method AddMassMany(ms: seq<Mass>)
      modifies this
      ensures masses == old(masses) + ms
      ensures old(masses) <= masses
      ensures ms == [] ==> masses == old(masses)
    {
      masses := masses + ms;
    }

    /** The position objects of the listed masses: what `update` writes. */
    ghost function Positions(): set<Vec2>
      reads this, masses
    {
      set m | m in masses :: m.pos
    }

    /** The position and velocity objects of the listed masses: what `update` reads. */
    ghost function VectorObjects(): (r: set<Vec2>)
      reads this, masses
      ensures forall k :: 0 <= k < |masses| ==> masses[k].pos in r && masses[k].vel in r
    {
      Positions() + set m | m in masses :: m.vel
    }

    /** Moves each listed mass's position object by its velocity, mass by
      * mass in list order (the loop is `StepAll`). It writes only position
      * objects, and leaves the list and every mass's fields as they were. */
    method Update()
      modifies Positions()
      ensures masses == old(masses)
      ensures forall m :: m in masses ==> unchanged(m)
      ensures forall o :: o in old(VectorObjects()) ==>
        o.View() == AdvanceAll(old(Snapshot(VectorObjects())), old(LinksOf(masses)))[o]
    {
      ghost var vs := VectorObjects();
      StepAll(masses, vs, Snapshot(vs));
    }
  }

  /** The loop of `update` over the masses `ms`: when `store` holds the
    * values of the objects `vs`, which include every listed position and
    * velocity, each of them ends at the value the fold `AdvanceAll` gives. */
  method StepAll(ms: seq<Mass>, ghost vs: set<Vec2>, ghost store: Store)
    requires forall k :: 0 <= k < |ms| ==> ms[k].pos in vs && ms[k].vel in vs
    requires store.Keys == vs && forall o :: o in vs ==> o.View() == store[o]
    modifies set m | m in ms :: m.pos
    ensures forall o :: o in vs ==> o.View() == AdvanceAll(store, old(LinksOf(ms)))[o]
  {
    ghost var links := LinksOf(ms);
    assert Covers(store, links);
    ghost var current := store;
    for i := 0 to |ms|
      invariant current == AdvanceAll(store, links[..i])
      invariant current.Keys == vs
      invariant forall o :: o in vs ==> o.View() == current[o]
    {
      AdvanceAllStep(store, links, i);
      var mass := ms[i];
      assert links[i] == Link(mass.pos, mass.vel);
      Step(mass, vs, current);
      current := Advance(current, links[i]);
    }
    assert links[..|links|] == links;
  }

  /** One pass of the loop of `update`: the mass's position object takes
    * the sum of its value and its velocity object's value; nothing else
    * changes, whichever objects the two are. When `store` holds the values
    * of the objects `vs`, they end at the values `Advance` gives. */
  method Step(mass: Mass, ghost vs: set<Vec2>, ghost store: Store)
    requires mass.pos in vs && mass.vel in vs
    requires forall o :: o in vs ==> o in store && o.View() == store[o]
    modifies mass.pos
    ensures mass.pos.View() == old(mass.pos.View()).Add(old(mass.vel.View()))
    ensures forall o :: o in vs ==> o.View() == Advance(store, Link(mass.pos, mass.vel))[o]
  {
    mass.pos.x := mass.pos.x + mass.vel.x;
    mass.pos.y := mass.pos.y + mass.vel.y;
  }

  /** Two listed masses that share one position object (two masses built
    * from the same `pos` vector, or one mass added twice): one update moves
    * that object by both velocities. */
  method UpdateSharedPosition(sim: Sim)
    requires |sim.masses| == 2 && sim.masses[0].pos == sim.masses[1].pos
    requires sim.masses[0].vel != sim.masses[0].pos && sim.masses[1].vel != sim.masses[0].pos
    modifies sim.Positions()
    ensures sim.masses[0].pos.View()
         == old(sim.masses[0].pos.View()).Add(old(sim.masses[0].vel.View())).Add(old(sim.masses[1].vel.View()))
  {
    var p, v1, v2 := sim.masses[0].pos, sim.masses[0].vel, sim.masses[1].vel;
    ghost var s0 := Snapshot(sim.VectorObjects());
    ghost var links := LinksOf(sim.masses);
    assert links == [Link(p, v1), Link(p, v2)];
    SharedPosition(s0, p, v1, v2);
    sim.Update();
  }
}

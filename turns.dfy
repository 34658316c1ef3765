/** The seat arithmetic behind Game.current_player, Game.advance_turn and the
    fast-forward of Game.apply_remote_move in components/game.py: four
    seats in a fixed cyclic order, each either alive or not. `alive[i]`
    says whether the colour in seat i is alive. */
module Turns {

  /** The number of seats, len(self.players). */
  const Seats: nat := 4

  predicate IsAliveTable(alive: seq<bool>)
  {
    |alive| == Seats
  }

  predicate AnyAlive(alive: seq<bool>)
    requires IsAliveTable(alive)
  {
    exists s :: 0 <= s < Seats && alive[s]
  }

  /** The seat k steps after seat t, cyclically. */
  function Seat(t: int, k: int): nat
  {
    (t + k) % Seats
  }

  /** How many steps forward, cyclically, seat `to` lies from seat `from`. */
  function Gap(from: int, to: int): nat
  {
    (to - from) % Seats
  }

  lemma GapOfSeat(t: nat, k: nat)
    requires t < Seats && k < Seats
    ensures Gap(t, Seat(t, k)) == k
  {
  }

  lemma SeatOfGap(t: nat, s: nat)
    requires t < Seats && s < Seats
    ensures Seat(t, Gap(t, s)) == s
  {
  }

  /** The number of dead seats passed over when looking from seat t,
      starting k steps on, for the first alive seat: at most four. */
  function Skips(alive: seq<bool>, t: nat, k: nat): (n: nat)
    requires IsAliveTable(alive) && k <= Seats
    ensures k <= n <= Seats
    ensures n < Seats ==> alive[Seat(t, n)]
    ensures forall j :: k <= j < n ==> !alive[Seat(t, j)]
    decreases Seats - k
  {
    if k == Seats || alive[Seat(t, k)] then k else Skips(alive, t, k + 1)
  }

  /** The seat current_player settles on from seat t: the first alive seat
      at or after t, or t itself (after four skips) when none is alive. */
  function FirstAlive(alive: seq<bool>, t: nat): (r: nat)
    requires IsAliveTable(alive) && t < Seats
    ensures r < Seats
    ensures AnyAlive(alive) ==> alive[r]
    ensures !AnyAlive(alive) ==> r == t
    ensures forall s :: 0 <= s < Seats && alive[s] ==> Gap(t, r) <= Gap(t, s)
  {
    var n := Skips(alive, t, 0);
    if n < Seats then
      GapOfSeat(t, n);
      forall s | 0 <= s < Seats && alive[s] ensures n <= Gap(t, s) {
        SeatOfGap(t, s);
      }
      Seat(t, n)
    else
      assert !AnyAlive(alive) by {
        forall s | 0 <= s < Seats ensures !alive[s] {
          SeatOfGap(t, s);
        }
      }
      t
  }

  /** The seat advance_turn moves to from seat t: the first alive seat
      strictly after t. */
  function NextAlive(alive: seq<bool>, t: nat): (r: nat)
    requires IsAliveTable(alive) && t < Seats
    ensures r < Seats
  {
    FirstAlive(alive, Seat(t, 1))
  }

  /** Every seat passed over on the way to FirstAlive is dead. */
  lemma FirstAliveSkipsDead(alive: seq<bool>, t: nat, k: nat)
    requires IsAliveTable(alive) && t < Seats
    requires k < Gap(t, FirstAlive(alive, t))
    ensures !alive[Seat(t, k)]
  {
    var r := FirstAlive(alive, t);
    var s := Seat(t, k);
    GapOfSeat(t, k);
    GapOfSeat(t, 0);
    assert Gap(t, s) == k;
  }

  /** NextAlive lands on an alive seat; on t itself only when t is the only
      alive seat; and otherwise on the nearest alive seat after t. */
  lemma NextAliveIsNext(alive: seq<bool>, t: nat)
    requires IsAliveTable(alive) && t < Seats && AnyAlive(alive)
    ensures alive[NextAlive(alive, t)]
    ensures NextAlive(alive, t) == t <==> forall s :: 0 <= s < Seats && alive[s] ==> s == t
    ensures forall s :: 0 <= s < Seats && alive[s] && s != t ==>
      NextAlive(alive, t) != t && 0 < Gap(t, NextAlive(alive, t)) <= Gap(t, s)
  {
    var t1 := Seat(t, 1);
    var r := NextAlive(alive, t);
    forall s | 0 <= s < Seats
      ensures Gap(t, s) == if s == t then 0 else Gap(t1, s) + 1
    {
    }
    if r == t {
      forall s | 0 <= s < Seats && alive[s] ensures s == t {
        assert Gap(t1, r) <= Gap(t1, s);
      }
    }
  }

  /** With all four seats alive the turn goes round in seat order. */
  lemma FullRotation(alive: seq<bool>, t: nat)
    requires IsAliveTable(alive) && t < Seats
    requires forall s :: 0 <= s < Seats ==> alive[s]
    ensures NextAlive(alive, t) == (t + 1) % Seats
  {
    var t1 := Seat(t, 1);
    assert alive[t1];
    GapOfSeat(t1, 0);
  }

  /** With only seat d out, the turn goes round the other three and never
      lands on d. */
  lemma RotationWithout(alive: seq<bool>, t: nat, d: nat)
    requires IsAliveTable(alive) && t < Seats && d < Seats
    requires forall s :: 0 <= s < Seats ==> (alive[s] <==> s != d)
    ensures NextAlive(alive, t) == if Seat(t, 1) == d then Seat(t, 2) else Seat(t, 1)
  {
    var t1 := Seat(t, 1);
    if t1 == d {
      assert Seat(t1, 1) != d;
      GapOfSeat(t1, 1);
      assert Seat(t1, 1) == Seat(t, 2);
    } else {
      GapOfSeat(t1, 0);
    }
  }

  /** A dead seat is never where current_player settles while any seat is
      alive; with no seat alive current_player does not move at all. This is
      why the fast-forward of apply_remote_move is only entered for an
      alive colour: from any other start it would never reach a dead one. */
  lemma DeadSeatNeverCurrent(alive: seq<bool>, t: nat, d: nat)
    requires IsAliveTable(alive) && t < Seats && d < Seats && !alive[d]
    ensures FirstAlive(alive, t) == d ==> t == d && !AnyAlive(alive)
  {
  }

  /** One round of the fast-forward: stepping past the current seat and
      settling again strictly shortens the distance to an alive seat s that
      was not yet reached. */
  lemma FastForwardStep(alive: seq<bool>, t: nat, s: nat)
    requires IsAliveTable(alive) && t < Seats && s < Seats && alive[s] && t != s
    ensures Gap(FirstAlive(alive, Seat(t, 1)), s) < Gap(t, s)
  {
    var t1 := Seat(t, 1);
    var r := FirstAlive(alive, t1);
    assert Gap(t1, r) <= Gap(t1, s);
    assert Gap(t1, s) + 1 == Gap(t, s);
    assert Gap(r, s) == Gap(t1, s) - Gap(t1, r);
  }
}

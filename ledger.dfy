/**
 * The dispatch ledger (`troopsOnMove`) as a read settles it at time `now`:
 *  - an outbound group whose arrival time has passed is handed to the battle
 *    function; the group it returns (if any) takes its place;
 *  - a group still in flight stays unchanged;
 *  - a returning group whose arrival time has passed adds its troops to the
 *    garrison and leaves the ledger.
 * All three comparisons are strict, so a group arriving exactly at `now`
 * meets none of them: it is dropped and returns nothing.
 */
module Ledger {

  import opened Wrappers
  import opened Settlement

  /**
   * The battle resolution of an outbound group of the named settlement: the
   * group that heads back, or none. Its rules are not part of this model.
   */
  type Battle = (string, Group) -> Option<Group>

  predicate OutboundArrived(g: Group, now: int) { g.arrivalTime < now && !g.headingBack }
  predicate InFlight(g: Group, now: int) { g.arrivalTime > now }
  predicate HomeArrived(g: Group, now: int) { g.arrivalTime < now && g.headingBack }

  /** How many troops of type `t` a group carries (0 for a type it does not carry). */
  function Carried(carried: map<TroopType, int>, t: TroopType): int {
    if t in carried then carried[t] else 0
  }

  /** The garrison after a group carrying `carried` comes home. */
  function Reinforced(garrison: Garrison, carried: map<TroopType, int>): (r: Garrison)
    ensures forall t :: r.Count(t) == garrison.Count(t) + Carried(carried, t)
  {
    Garrison(
      garrison.knifeBoy + Carried(carried, KnifeBoy),
      garrison.spearman + Carried(carried, Spearman),
      garrison.swordsman + Carried(carried, Swordsman),
      garrison.donkeyRider + Carried(carried, DonkeyRider),
      garrison.jouster + Carried(carried, Jouster),
      garrison.darkKnight + Carried(carried, DarkKnight))
  }

  /** Two garrisons with the same count of every type are the same garrison. */
  lemma GarrisonExtensionality(a: Garrison, b: Garrison)
    requires forall t :: a.Count(t) == b.Count(t)
    ensures a == b
  {
    assert a.Count(KnifeBoy) == b.Count(KnifeBoy);
    assert a.Count(Spearman) == b.Count(Spearman);
    assert a.Count(Swordsman) == b.Count(Swordsman);
    assert a.Count(DonkeyRider) == b.Count(DonkeyRider);
    assert a.Count(Jouster) == b.Count(Jouster);
    assert a.Count(DarkKnight) == b.Count(DarkKnight);
  }

  /** What one group leaves in the ledger. */
  function Fate(username: string, g: Group, now: int, battle: Battle): seq<Group> {
    if OutboundArrived(g, now) then
      match battle(username, g)
      case Some(returning) => [returning]
      case None => []
    else if InFlight(g, now) then [g]
    else []
  }

  /** The ledger after the read: the fates of the groups, in ledger order. */
  function Kept(username: string, groups: seq<Group>, now: int, battle: Battle): seq<Group>
    decreases |groups|
  {
    if groups == [] then []
    else Kept(username, groups[..|groups| - 1], now, battle) + Fate(username, groups[|groups| - 1], now, battle)
  }

  /** The garrison after the read: every home-arrived group reinforces it, in ledger order. */
  function Garrisoned(garrison: Garrison, groups: seq<Group>, now: int): Garrison
    decreases |groups|
  {
    if groups == [] then garrison
    else
      var before := Garrisoned(garrison, groups[..|groups| - 1], now);
      var g := groups[|groups| - 1];
      if HomeArrived(g, now) then Reinforced(before, g.troops) else before
  }

  /**
   * A returning group's troops rejoin the garrison one carried type at a time:
   * every carried type grows by the carried count; the other types are unchanged.
   */
  method ReturnToGarrison(garrison: Garrison, carried: map<TroopType, int>) returns (troops: Garrison)
    ensures forall t :: t in carried ==> troops.Count(t) == garrison.Count(t) + carried[t]
    ensures forall t :: t !in carried ==> troops.Count(t) == garrison.Count(t)
    ensures troops == Reinforced(garrison, carried)
  {
    troops := garrison;
    var pending := carried.Keys;
    while pending != {}
      invariant pending <= carried.Keys
      invariant forall t :: troops.Count(t) == garrison.Count(t) + (if t in carried && t !in pending then carried[t] else 0)
      decreases pending
    {
      var t :| t in pending;
      troops := troops.Add(t, carried[t]);
      pending := pending - {t};
    }
    GarrisonExtensionality(troops, Reinforced(garrison, carried));
  }

  /**
   * The ledger loop of a read, one group after another: returns the new
   * garrison and the new ledger.
   */
  method SettleLedger(username: string, groups: seq<Group>, garrison: Garrison, now: int, battle: Battle)
    returns (troops: Garrison, troopsOnMove: seq<Group>)
    ensures troops == Garrisoned(garrison, groups, now)
    ensures troopsOnMove == Kept(username, groups, now, battle)
  {
    troops := garrison;
    troopsOnMove := [];
    for i := 0 to |groups|
      invariant troops == Garrisoned(garrison, groups[..i], now)
      invariant troopsOnMove == Kept(username, groups[..i], now, battle)
    {
      var group := groups[i];
      assert groups[..i + 1][..i] == groups[..i];
      if group.arrivalTime < now && !group.headingBack {
        var returningGroup := battle(username, group);
        if returningGroup.Some? {
          troopsOnMove := troopsOnMove + [returningGroup.value];
        }
      } else if group.arrivalTime > now {
        troopsOnMove := troopsOnMove + [group];
      }
      if group.arrivalTime < now && group.headingBack {
        troops := ReturnToGarrison(troops, group.troops);
      }
    }
    assert groups[..|groups|] == groups;
  }

  /**
   * A group is in the new ledger exactly when it is a group of the old
   * ledger still in flight, or the battle result of an outbound group whose
   * arrival time has passed.
   */
  lemma {:induction false} KeptMembers(username: string, groups: seq<Group>, now: int, battle: Battle, r: Group)
    ensures r in Kept(username, groups, now, battle) <==>
      exists i :: 0 <= i < |groups| &&
        ((InFlight(groups[i], now) && r == groups[i]) ||
         (OutboundArrived(groups[i], now) && battle(username, groups[i]) == Some(r)))
  {
    if groups != [] {
      var n := |groups| - 1;
      var init := groups[..n];
      KeptMembers(username, init, now, battle, r);
      assert forall i :: 0 <= i < n ==> init[i] == groups[i];
      if r in Kept(username, groups, now, battle) {
        if r !in Kept(username, init, now, battle) {
          assert r in Fate(username, groups[n], now, battle);
        }
      }
    }
  }

  /** A ledger whose groups are all still in flight is kept as it is. */
  lemma {:induction false} InFlightKept(username: string, groups: seq<Group>, now: int, battle: Battle)
    requires forall i :: 0 <= i < |groups| ==> InFlight(groups[i], now)
    ensures Kept(username, groups, now, battle) == groups
  {
    if groups != [] {
      var n := |groups| - 1;
      InFlightKept(username, groups[..n], now, battle);
      assert groups[..n] + [groups[n]] == groups;
    }
  }

  /** With no group home-arrived, the garrison is unchanged: outbound groups never add to it. */
  lemma {:induction false} NoHomecomingKeepsGarrison(garrison: Garrison, groups: seq<Group>, now: int)
    requires forall i :: 0 <= i < |groups| ==> !HomeArrived(groups[i], now)
    ensures Garrisoned(garrison, groups, now) == garrison
  {
    if groups != [] {
      NoHomecomingKeepsGarrison(garrison, groups[..|groups| - 1], now);
    }
  }

  /** Troops of type `t` carried by the home-arrived groups of a ledger. */
  function Returned(groups: seq<Group>, now: int, t: TroopType): int {
    if groups == [] then 0
    else (if HomeArrived(groups[0], now) then Carried(groups[0].troops, t) else 0) + Returned(groups[1..], now, t)
  }

  lemma {:induction false} ReturnedAppend(groups: seq<Group>, g: Group, now: int, t: TroopType)
    ensures Returned(groups + [g], now, t) == Returned(groups, now, t) + (if HomeArrived(g, now) then Carried(g.troops, t) else 0)
  {
    if groups != [] {
      assert (groups + [g])[1..] == groups[1..] + [g];
      ReturnedAppend(groups[1..], g, now, t);
    }
  }

  /**
   * After the read, the garrison holds, of every type, what it held before
   * plus exactly what the home-arrived groups carried.
   */
  lemma {:induction false} GarrisonCounts(garrison: Garrison, groups: seq<Group>, now: int, t: TroopType)
    ensures Garrisoned(garrison, groups, now).Count(t) == garrison.Count(t) + Returned(groups, now, t)
  {
    if groups != [] {
      var n := |groups| - 1;
      GarrisonCounts(garrison, groups[..n], now, t);
      ReturnedAppend(groups[..n], groups[n], now, t);
      assert groups[..n] + [groups[n]] == groups;
    }
  }

  /** Troops of type `t` on the move in a ledger. */
  function OnMove(groups: seq<Group>, t: TroopType): int {
    if groups == [] then 0 else Carried(groups[0].troops, t) + OnMove(groups[1..], t)
  }

  lemma {:induction false} OnMoveAppend(groups: seq<Group>, more: seq<Group>, t: TroopType)
    ensures OnMove(groups + more, t) == OnMove(groups, t) + OnMove(more, t)
  {
    if groups != [] {
      assert (groups + more)[1..] == groups[1..] + more;
      OnMoveAppend(groups[1..], more, t);
    } else {
      assert groups + more == more;
    }
  }

  /**
   * Without battles and without a group arriving exactly at `now`, a read
   * neither creates nor destroys troops: garrison plus ledger is conserved
   * for every type.
   */
  lemma {:induction false} TroopsConserved(username: string, garrison: Garrison, groups: seq<Group>, now: int, battle: Battle, t: TroopType)
    requires forall i :: 0 <= i < |groups| ==> !OutboundArrived(groups[i], now) && groups[i].arrivalTime != now
    ensures Garrisoned(garrison, groups, now).Count(t) + OnMove(Kept(username, groups, now, battle), t)
         == garrison.Count(t) + OnMove(groups, t)
  {
    if groups != [] {
      var n := |groups| - 1;
      var init := groups[..n];
      TroopsConserved(username, garrison, init, now, battle, t);
      OnMoveAppend(Kept(username, init, now, battle), Fate(username, groups[n], now, battle), t);
      OnMoveAppend(init, [groups[n]], t);
      assert init + [groups[n]] == groups;
    }
  }

  /**
   * A group whose arrival time equals `now` exactly meets none of the strict
   * comparisons: it leaves the ledger and adds nothing to the garrison.
   */
  lemma ArrivingNowIsDropped(username: string, garrison: Garrison, groups: seq<Group>, g: Group, now: int, battle: Battle)
    requires g.arrivalTime == now
    ensures Kept(username, groups + [g], now, battle) == Kept(username, groups, now, battle)
    ensures Garrisoned(garrison, groups + [g], now) == Garrisoned(garrison, groups, now)
  {
    assert (groups + [g])[..|groups|] == groups;
  }

  /**
   * Hence troops can vanish: five swordsmen heading home and arriving exactly
   * at the read's instant are neither kept nor added to the garrison.
   */
  lemma ArrivingNowLosesTroops(username: string, now: int, battle: Battle)
    ensures var g := Group(map[Swordsman := 5], now, true);
      Garrisoned(NoTroops, [g], now).Count(Swordsman) + OnMove(Kept(username, [g], now, battle), Swordsman) == 0
      && NoTroops.Count(Swordsman) + OnMove([g], Swordsman) == 5
  {
    var g := Group(map[Swordsman := 5], now, true);
    assert [g][..0] == [];
    assert [g][1..] == [];
  }

  /** A returning group of five swordsmen that arrived before the read joins the garrison and leaves the ledger. */
  lemma ReturningSwordsmenJoinGarrison(username: string, garrison: Garrison, now: int, battle: Battle)
    ensures var g := Group(map[Swordsman := 5], now - 1, true);
      Garrisoned(garrison, [g], now) == garrison.Add(Swordsman, 5)
      && Kept(username, [g], now, battle) == []
  {
    var g := Group(map[Swordsman := 5], now - 1, true);
    assert [g][..0] == [];
    var after := Garrisoned(garrison, [g], now);
    assert Garrisoned(garrison, [g][..0], now) == garrison;
    assert HomeArrived(g, now);
    assert after == Reinforced(garrison, g.troops);
    forall t ensures after.Count(t) == garrison.Add(Swordsman, 5).Count(t) {
      assert Carried(g.troops, t) == if t == Swordsman then 5 else 0;
    }
    GarrisonExtensionality(after, garrison.Add(Swordsman, 5));
  }

  /**
   * Settling is final: when every battle result heads back with a later
   * arrival time (a return trip takes time), reading again at the same
   * instant changes neither the ledger nor the garrison. No group is fought
   * or brought home twice by repeated reads.
   */
  lemma SettledLedgerIsStable(username: string, garrison: Garrison, groups: seq<Group>, now: int, battle: Battle)
    requires forall i :: 0 <= i < |groups| && OutboundArrived(groups[i], now) && battle(username, groups[i]).Some? ==>
      InFlight(battle(username, groups[i]).value, now)
    ensures var settled := Kept(username, groups, now, battle);
      Kept(username, settled, now, battle) == settled && Garrisoned(garrison, settled, now) == garrison
  {
    var settled := Kept(username, groups, now, battle);
    forall j | 0 <= j < |settled|
      ensures InFlight(settled[j], now)
    {
      KeptMembers(username, groups, now, battle, settled[j]);
    }
    InFlightKept(username, settled, now, battle);
    NoHomecomingKeepsGarrison(garrison, settled, now);
  }
}

/** How long cargo waits for its owner, for being righted, replaced and cleared away (internal/realtime/cargo.go). */
module HubCargoTimers {
  import opened Common
  import opened TravelAccess
  import opened HubTypes
  import opened HubCargo

  // ---------- A driver goes away ----------

  /** What a driver held when going away is still the driver's for half a second more, and counts as untouched from now on. */
  lemma GoneDriversHaveHalfASecond(y: Yard, c: ClientId, now: int, id: CargoId)
    requires id in y.cargo
    ensures
      var z, held := MarkForRelease(y, c, now), y.cargo[id].owner == Some(c);
      && id in z.cargo && z.cargo.Keys == y.cargo.Keys
      && z.cargo[id] == (if held then y.cargo[id].(claimExpires := Millis(now + 500 * MILLISECOND), updated := Millis(now)) else y.cargo[id])
      && Entry(z.untouched, id) == (if held then Some(Millis(now) * MILLISECOND) else Entry(y.untouched, id))
      && Entry(z.touched, id) == (if held then Some(Millis(now) * MILLISECOND) else Entry(y.touched, id))
      && z.spawns == y.spawns && z.away == y.away && z.replaced == y.replaced && z.nextId == y.nextId
  {
  }

  lemma OneTimer(ids: set<CargoId>, id: CargoId, c: ClientId, expires: int, due: int)
    requires id in ids
    ensures Armed(Release(id, c, expires), due) in ReleaseTimers(ids, c, expires, due)
    ensures Armed(AutoRight(id, expires), due) in AutoRightTimers(ids, expires, due)
    ensures Armed(Cleanup(id, expires), due) in CleanupTimers(ids, expires, due)
  {
  }

  /** And timers are armed that free it then, right it two seconds later, and may clear it away ten minutes later. */
  lemma GoneDriversArmTimers(y: Yard, c: ClientId, now: int, id: CargoId)
    requires now > 0 && id in y.cargo && y.cargo[id].owner == Some(c)
    ensures
      var timers, since := MarkForRelease(y, c, now).timers, Millis(now) * MILLISECOND;
      var expires := Millis(now + 500 * MILLISECOND);
      && Armed(Release(id, c, expires), if expires * MILLISECOND > now then expires * MILLISECOND else now) in timers
      && Armed(AutoRight(id, since), now + 2 * SECOND) in timers
      && Armed(Cleanup(id, since), since + 10 * MINUTE) in timers
      && y.timers <= timers
  {
    var ids, since, expires := Owned(y, c), Millis(now) * MILLISECOND, Millis(now + CLAIM_RELEASE_DELAY);
    assert id in ids;
    OneTimer(ids, id, c, expires, Max(now, expires * MILLISECOND));
    OneTimer(ids, id, c, since, now + AUTO_RIGHT_DELAY);
    OneTimer(ids, id, c, since, since + CLEANUP_AGE);
  }

  // ---------- Timers ----------

  /** A claim's timer frees its cargo if that is still the owner and the claim, and the owner is not in the cargo's world. */
  lemma FreedIff(presences: Presences, y: Yard, id: CargoId, owner: ClientId, expires: int, now: int)
    ensures
      var z := FireRelease(presences, y, id, owner, expires, now);
      if id in y.cargo && y.cargo[id].owner == Some(owner) && y.cargo[id].claimExpires == expires
        && !(owner in presences && presences[owner].world == y.cargo[id].world)
      then z == y.(cargo := y.cargo[id := y.cargo[id].(owner := None, claimExpires := 0, updated := Millis(now))])
      else z == y
  {
  }

  /** Cargo is righted, and nobody's, once it was untouched for two seconds on end. */
  lemma RightedIff(y: Yard, id: CargoId, since: int, now: int)
    ensures
      var z := FireAutoRight(y, id, since, now);
      if id in y.cargo && Entry(y.untouched, id) == Some(since) && now >= since + 2 * SECOND
      then
        z == y.(untouched := y.untouched - {id},
                cargo := y.cargo[id := y.cargo[id].(owner := None, claimExpires := 0, autoRight := true, updated := Millis(now))])
      else z == y
  {
  }

  /** Three units from where it was put. */
  predicate Away(y: Yard, id: CargoId)
    requires id in y.cargo && id in y.spawns
  {
    DistanceSquared(y.cargo[id].at, y.spawns[id]) > 3.0 * 3.0
  }

  /** Cargo is replaced, once, when it was away for three seconds on end and still is. */
  lemma ReplacedIff(y: Yard, source: CargoId, since: int, now: int)
    requires y.cargo.Keys == y.spawns.Keys
    ensures
      var z := FireReplenish(y, source, since, now);
      if source in y.cargo && Entry(y.away, source) == Some(since) && source !in y.replaced && now >= since + 3 * SECOND && Away(y, source)
      then
        var another := Job(FreshJob(y.cargo, y.nextId));
        && z.replaced == y.replaced + {source} && z.away == y.away - {source} && z.nextId == another.number + 1
        && z.cargo == y.cargo[another := Cargo(y.cargo[source].world, y.spawns[source], None, 0, false, Millis(now))]
        && z.spawns == y.spawns[another := y.spawns[source]] && z.touched == y.touched[another := now] && z.untouched == y.untouched
        && z.timers == y.timers + multiset{Armed(Cleanup(another, now), now + 10 * MINUTE)}
      else z == y
  {
  }

  function OfWorld(y: Yard, world: string): (ids: set<CargoId>) {
    set id | id in y.cargo && y.cargo[id].world == world
  }

  /** Cargo is cleared away when nobody owns it, nobody touched it for ten minutes, and its world has more than fifty. */
  lemma ClearedIff(y: Yard, id: CargoId, touched: int, now: int)
    ensures
      var z := FireCleanup(y, id, touched, now);
      if id in y.cargo && Entry(y.touched, id) == Some(touched) && y.cargo[id].owner == None && now >= touched + 10 * MINUTE
        && |OfWorld(y, y.cargo[id].world)| > 50
      then
        && z.cargo == y.cargo - {id} && z.spawns == y.spawns - {id} && z.away == y.away - {id}
        && z.untouched == y.untouched - {id} && z.touched == y.touched - {id} && z.replaced == y.replaced - {id}
        && z.timers == y.timers && z.nextId == y.nextId
      else z == y
  {
    if id in y.cargo {
      assert OfWorld(y, y.cargo[id].world) == InWorld(y, y.cargo[id].world);
    }
  }

  // ---------- Updates ----------

  /** An accepted update takes up again what is already waited for, and only then; its times are those of the first one without touch. */
  lemma TouchesAreNoted(y: Yard, id: CargoId, touching: bool, now: int)
    ensures
      var z := NoteTouch(y, id, touching, now);
      && (touching ==> Entry(z.untouched, id) == None && Entry(z.touched, id) == Some(now) && z.timers == y.timers)
      && (!touching ==>
            && Entry(z.untouched, id) == Some(Entry(y.untouched, id).GetOr(now))
            && Entry(z.touched, id) == Some(Entry(y.touched, id).GetOr(now)))
      && (!touching && id in y.untouched ==> z.timers == y.timers)
      && (!touching && id !in y.untouched ==>
            var age := Entry(y.touched, id).GetOr(now) + 10 * MINUTE;
            z.timers == y.timers + multiset{Armed(AutoRight(id, now), now + 2 * SECOND)}
                        + multiset{Armed(Cleanup(id, age - 10 * MINUTE), if age > now then age else now)})
      && z.cargo == y.cargo && z.spawns == y.spawns && z.away == y.away && z.replaced == y.replaced && z.nextId == y.nextId
      && (forall other :: other != id ==>
            Entry(z.untouched, other) == Entry(y.untouched, other) && Entry(z.touched, other) == Entry(y.touched, other))
  {
  }

  /** Cargo waits to be replaced as long as it is away without a break, and not yet replaced. */
  lemma DistanceIsNoted(y: Yard, id: CargoId, now: int)
    requires id in y.cargo && id in y.spawns
    ensures
      var z := NoteDistance(y, id, now);
      && Entry(z.away, id) == (if Away(y, id) && id !in y.replaced then Some(Entry(y.away, id).GetOr(now)) else None)
      && z.timers == (if Away(y, id) && id !in y.replaced && id !in y.away
                      then y.timers + multiset{Armed(Replenish(id, now), now + 3 * SECOND)} else y.timers)
      && z == y.(away := z.away, timers := z.timers)
      && forall other :: other != id ==> Entry(z.away, other) == Entry(y.away, other)
  {
  }

  /** Cargo no longer touched is its driver's for half a second more, from when it was let go. */
  lemma LettingGoGivesHalfASecond(y: Yard, c: ClientId, message: CargoMessage, now: int)
    requires message.id in y.cargo
    ensures
      var z, id := Moved(y, c, message, now), message.id;
      var was, expires := y.cargo[id].claimExpires, z.cargo[id].claimExpires;
      && expires == (if message.touching then 0 else if was > 0 then was else Millis(now + 500 * MILLISECOND))
      && z.cargo[id] == Cargo(y.cargo[id].world, message.at, Some(c), expires, false, Millis(now))
      && (message.touching ==> z.timers == y.timers)
      && (!message.touching && expires > 0 ==>
            z.timers == y.timers + multiset{
              Armed(Release(id, c, expires), if expires * MILLISECOND > now then expires * MILLISECOND else now)})
  {
  }

  /** Claiming cargo takes it up: it is not waiting to be righted any more. */
  lemma ClaimingTouches(presences: Presences, y: Yard, c: ClientId, id: CargoId, now: int)
    requires Claim(presences, y, c, id, now).accepted
    ensures
      var z := Claim(presences, y, c, id, now).yard;
      && z.cargo[id] == Cargo(y.cargo[id].world, y.cargo[id].at, Some(c), 0, false, Millis(now))
      && z.untouched == y.untouched - {id} && z.touched == y.touched[id := now]
      && z == y.(cargo := z.cargo, untouched := z.untouched, touched := z.touched)
  {
  }
}

/** Abandoned cargo can always be freed, waiting cargo is always dealt with, and each spawn has one line of descent. */
module HubCargoTheorems {
  import opened Common
  import opened TravelAccess
  import opened HubTypes
  import opened HubCargo

  // ---------- Timers ----------

  lemma ArmedStays(before: multiset<Armed>, after: multiset<Armed>, timer: Timer, latest: int)
    requires before <= after && IsArmed(before, timer, latest)
    ensures IsArmed(after, timer, latest)
  {
    var a :| a in before && a.timer == timer && a.due >= latest;
    assert a in after;
  }

  lemma ArmedIsArmed(timers: multiset<Armed>, timer: Timer, due: int, latest: int)
    requires Armed(timer, due) in timers && due >= latest
    ensures IsArmed(timers, timer, latest)
  {
  }

  /** Another timer stays armed when one goes off. */
  lemma OthersStayArmed(timers: multiset<Armed>, fired: Armed, timer: Timer, latest: int)
    requires IsArmed(timers, timer, latest) && timer != fired.timer
    ensures IsArmed(timers - multiset{fired}, timer, latest)
  {
    var a :| a in timers && a.timer == timer && a.due >= latest;
    assert a in timers - multiset{fired};
  }

  lemma ArmingGrows(timers: multiset<Armed>, timer: Timer, due: int)
    ensures timers <= Arm(timers, timer, due)
    ensures Armed(timer, due) in Arm(timers, timer, due)
  {
  }

  lemma ArmingIsPunctual(timers: multiset<Armed>, timer: Timer, due: int)
    requires Punctual(timers)
    requires timer.AutoRight? ==> due >= timer.since + AUTO_RIGHT_DELAY
    requires timer.Replenish? ==> due >= timer.since + REPLENISH_DELAY
    ensures Punctual(Arm(timers, timer, due))
  {
  }

  lemma FiringIsPunctual(timers: multiset<Armed>, fired: Armed)
    requires Punctual(timers)
    ensures Punctual(timers - multiset{fired})
  {
  }

  // ---------- One cargo ----------

  lemma TrackedStays(before: multiset<Armed>, after: multiset<Armed>, id: CargoId, slot: Slot)
    requires Tracked(before, id, slot) && before <= after
    ensures Tracked(after, id, slot)
  {
    if slot.untouched.Some? {
      ArmedStays(before, after, AutoRight(id, slot.untouched.value), slot.untouched.value + AUTO_RIGHT_DELAY);
    }
    if slot.away.Some? {
      ArmedStays(before, after, Replenish(id, slot.away.value), slot.away.value + REPLENISH_DELAY);
    }
  }

  /** Cargo stays in order while timers only get more and its owner does not leave its side. */
  lemma KeptStays(
    presences: Presences, later: Presences, before: multiset<Armed>, after: multiset<Armed>, id: CargoId, slot: Slot)
    requires Kept(presences, before, id, slot) && before <= after
    requires Beside(presences, slot.state) ==> Beside(later, slot.state)
    ensures Kept(later, after, id, slot)
  {
    TrackedStays(before, after, id, slot);
    var state := slot.state;
    if state.owner.Some? && !Beside(presences, state) {
      ArmedStays(before, after, Release(id, state.owner.value, state.claimExpires), state.claimExpires * MILLISECOND);
    }
  }

  /** A timer that goes off without concerning the cargo leaves it in order. */
  lemma KeptDisarmed(presences: Presences, timers: multiset<Armed>, fired: Armed, id: CargoId, slot: Slot)
    requires Kept(presences, timers, id, slot)
    requires Beside(presences, slot.state) || slot.state.owner.None?
      || fired.timer != Release(id, slot.state.owner.value, slot.state.claimExpires)
    requires slot.untouched.Some? ==> fired.timer != AutoRight(id, slot.untouched.value)
    requires slot.away.Some? ==> fired.timer != Replenish(id, slot.away.value)
    ensures Kept(presences, timers - multiset{fired}, id, slot)
  {
    var state := slot.state;
    if state.owner.Some? && !Beside(presences, state) {
      OthersStayArmed(timers, fired, Release(id, state.owner.value, state.claimExpires), state.claimExpires * MILLISECOND);
    }
    if slot.untouched.Some? {
      OthersStayArmed(timers, fired, AutoRight(id, slot.untouched.value), slot.untouched.value + AUTO_RIGHT_DELAY);
    }
    if slot.away.Some? {
      OthersStayArmed(timers, fired, Replenish(id, slot.away.value), slot.away.value + REPLENISH_DELAY);
    }
  }

  /** Freeing cargo, or ending a wait, asks for less. */
  lemma KeptWithLess(presences: Presences, timers: multiset<Armed>, id: CargoId, slot: Slot, less: Slot)
    requires Kept(presences, timers, id, slot)
    requires less.state.owner.None? || Beside(presences, less.state) || less.state == slot.state
    requires less.untouched in {None, slot.untouched} && less.away in {None, slot.away}
    requires less.away.Some? ==> less.replaced == slot.replaced && less.state.at == slot.state.at && less.spawn == slot.spawn
    ensures Kept(presences, timers, id, less)
  {
  }

  /** Changing one cargo, and keeping that in order, keeps all in order while timers only get more. */
  lemma OthersAreKept(presences: Presences, y: Yard, z: Yard, id: CargoId)
    requires SideTablesMatch(y) && SideTablesMatch(z) && z.cargo.Keys == y.cargo.Keys && y.timers <= z.timers
    requires forall other :: other in y.cargo ==> Kept(presences, y.timers, other, SlotOf(y, other))
    requires forall other :: other in y.cargo && other != id ==> SlotOf(z, other) == SlotOf(y, other)
    requires id in z.cargo ==> Kept(presences, z.timers, id, SlotOf(z, id))
    ensures forall other :: other in z.cargo ==> Kept(presences, z.timers, other, SlotOf(z, other))
  {
    forall other | other in z.cargo ensures Kept(presences, z.timers, other, SlotOf(z, other)) {
      if other != id { KeptStays(presences, presences, y.timers, z.timers, other, SlotOf(y, other)); }
    }
  }

  /** Which cargo descends from which spawn depends on worlds, spawns and replacements only. */
  ghost predicate SameLineage(y: Yard, z: Yard) {
    && z.spawns == y.spawns && z.replaced == y.replaced && z.cargo.Keys == y.cargo.Keys
    && forall id :: id in y.cargo ==> z.cargo[id].world == y.cargo[id].world
  }

  lemma LineageStays(y: Yard, z: Yard)
    requires SideTablesMatch(y) && OneUnreplacedEach(y) && SameLineage(y, z)
    ensures z.spawns.Keys == z.cargo.Keys && OneUnreplacedEach(z)
  {
  }

  // ---------- A driver goes away, or moves ----------

  lemma MarkedTimersArm(ids: set<CargoId>, c: ClientId, expires: int, since: int, now: int, id: CargoId)
    requires id in ids && expires > 0
    ensures Armed(Release(id, c, expires), Max(now, expires * MILLISECOND)) in MarkedTimers(ids, c, expires, since, now)
    ensures Armed(AutoRight(id, since), now + AUTO_RIGHT_DELAY) in MarkedTimers(ids, c, expires, since, now)
  {
    assert Armed(Release(id, c, expires), Max(now, expires * MILLISECOND))
      in ReleaseTimers(ids, c, expires, Max(now, expires * MILLISECOND));
    assert Armed(AutoRight(id, since), now + AUTO_RIGHT_DELAY) in AutoRightTimers(ids, since, now + AUTO_RIGHT_DELAY);
  }

  lemma MarkedTimersArePunctual(ids: set<CargoId>, c: ClientId, expires: int, since: int, now: int)
    requires since <= now
    ensures Punctual(MarkedTimers(ids, c, expires, since, now))
  {
  }

  lemma PunctualTogether(a: multiset<Armed>, b: multiset<Armed>)
    requires Punctual(a) && Punctual(b)
    ensures Punctual(a + b)
  {
    forall t | t in a + b ensures t in a || t in b {
    }
  }

  lemma MarkedTables(y: Yard, ids: set<CargoId>, c: ClientId, expires: int, since: int, now: int)
    requires SideTablesMatch(y) && ids <= y.cargo.Keys
    ensures
      var z := Marked(y, ids, c, expires, since, now);
      SideTablesMatch(z) && SameLineage(y, z)
  {
    assert MarkedCargo(y.cargo, ids, expires, now).Keys == y.cargo.Keys;
  }

  lemma MarkedSlot(y: Yard, ids: set<CargoId>, c: ClientId, expires: int, since: int, now: int, id: CargoId)
    requires id in y.cargo && id in y.spawns
    ensures
      var z, slot := Marked(y, ids, c, expires, since, now), SlotOf(y, id);
      && id in z.cargo && id in z.spawns
      && SlotOf(z, id) == if id in ids then
           slot.(state := slot.state.(claimExpires := expires, updated := Millis(now)), untouched := Some(since))
         else slot
  {
  }

  lemma MarkedIsKept(
    presences: Presences, timers: multiset<Armed>, more: multiset<Armed>, c: ClientId, expires: int, since: int, now: int,
    id: CargoId, slot: Slot)
    requires since <= now && Tracked(timers, id, slot) && slot.state.owner == Some(c)
    requires Armed(Release(id, c, expires), Max(now, expires * MILLISECOND)) in more
    requires Armed(AutoRight(id, since), now + AUTO_RIGHT_DELAY) in more
    ensures Kept(
      presences, timers + more, id,
      slot.(state := slot.state.(claimExpires := expires, updated := Millis(now)), untouched := Some(since)))
  {
    TrackedStays(timers, timers + more, id, slot);
    ArmedIsArmed(timers + more, Release(id, c, expires), Max(now, expires * MILLISECOND), expires * MILLISECOND);
    ArmedIsArmed(timers + more, AutoRight(id, since), now + AUTO_RIGHT_DELAY, since + AUTO_RIGHT_DELAY);
  }

  ghost predicate MarksEntry(
    y: Yard, z: Yard, ids: set<CargoId>, c: ClientId, expires: int, since: int, now: int, more: multiset<Armed>, id: CargoId)
    requires id in y.cargo && id in y.spawns && id in z.cargo && id in z.spawns
  {
    if id !in ids then SlotOf(z, id) == SlotOf(y, id)
    else
      && SlotOf(z, id)
        == SlotOf(y, id).(state := y.cargo[id].(claimExpires := expires, updated := Millis(now)), untouched := Some(since))
      && Armed(Release(id, c, expires), Max(now, expires * MILLISECOND)) in more
      && Armed(AutoRight(id, since), now + AUTO_RIGHT_DELAY) in more
  }

  /** `z` is `y` with the cargo of `c` marked and `more` timers armed for it. */
  ghost predicate MarksOnly(y: Yard, z: Yard, ids: set<CargoId>, c: ClientId, expires: int, since: int, now: int, more: multiset<Armed>)
    requires SideTablesMatch(y) && z.cargo.Keys == y.cargo.Keys && z.spawns.Keys == y.cargo.Keys
  {
    z.timers == y.timers + more && forall id :: id in y.cargo ==> MarksEntry(y, z, ids, c, expires, since, now, more, id)
  }

  lemma MarkingKeeps(
    presences: Presences, after: Presences, y: Yard, z: Yard, c: ClientId, expires: int, since: int, now: int, more: multiset<Armed>)
    requires WellKept(presences, y) && since <= now
    requires z.cargo.Keys == y.cargo.Keys && z.spawns.Keys == y.cargo.Keys
    requires MarksOnly(y, z, Owned(y, c), c, expires, since, now, more)
    requires forall d :: d in presences && d != c ==> d in after && after[d] == presences[d]
    ensures forall id :: id in z.cargo ==> Kept(after, z.timers, id, SlotOf(z, id))
  {
    forall id | id in z.cargo ensures Kept(after, z.timers, id, SlotOf(z, id)) {
      var slot := SlotOf(y, id);
      assert Kept(presences, y.timers, id, slot) && MarksEntry(y, z, Owned(y, c), c, expires, since, now, more, id);
      if id in Owned(y, c) {
        MarkedIsKept(after, y.timers, more, c, expires, since, now, id, slot);
      } else {
        KeptStays(presences, after, y.timers, z.timers, id, slot);
      }
    }
  }

  lemma MarkedMarks(y: Yard, ids: set<CargoId>, c: ClientId, expires: int, since: int, now: int)
    requires SideTablesMatch(y) && ids <= y.cargo.Keys && expires > 0
    requires SideTablesMatch(Marked(y, ids, c, expires, since, now)) && SameLineage(y, Marked(y, ids, c, expires, since, now))
    ensures MarksOnly(
      y, Marked(y, ids, c, expires, since, now), ids, c, expires, since, now, MarkedTimers(ids, c, expires, since, now))
  {
    var z, more := Marked(y, ids, c, expires, since, now), MarkedTimers(ids, c, expires, since, now);
    forall id | id in y.cargo ensures MarksEntry(y, z, ids, c, expires, since, now, more, id) {
      MarkedSlot(y, ids, c, expires, since, now, id);
      if id in ids { MarkedTimersArm(ids, c, expires, since, now, id); }
    }
  }

  lemma MarkedKeeps(
    presences: Presences, after: Presences, y: Yard, ids: set<CargoId>, c: ClientId, expires: int, since: int, now: int)
    requires WellKept(presences, y) && ids == Owned(y, c) && expires > 0 && since <= now
    requires forall d :: d in presences && d != c ==> d in after && after[d] == presences[d]
    ensures WellKept(after, Marked(y, ids, c, expires, since, now))
  {
    var z, more := Marked(y, ids, c, expires, since, now), MarkedTimers(ids, c, expires, since, now);
    MarkedTables(y, ids, c, expires, since, now);
    LineageStays(y, z);
    MarkedTimersArePunctual(ids, c, expires, since, now);
    PunctualTogether(y.timers, more);
    MarkedMarks(y, ids, c, expires, since, now);
    MarkingKeeps(presences, after, y, z, c, expires, since, now, more);
  }

  /** Wherever `c` goes from here, its cargo can be freed. */
  lemma MarkKeeps(presences: Presences, after: Presences, y: Yard, c: ClientId, now: int)
    requires WellKept(presences, y) && now > 0
    requires forall d :: d in presences && d != c ==> d in after && after[d] == presences[d]
    ensures WellKept(after, MarkForRelease(y, c, now))
  {
    MarkedKeeps(presences, after, y, Owned(y, c), c, Millis(now + CLAIM_RELEASE_DELAY), Millis(now) * MILLISECOND, now);
  }

  lemma MovingInOneWorldKeeps(presences: Presences, after: Presences, y: Yard, c: ClientId)
    requires WellKept(presences, y)
    requires forall d :: d in presences ==> d in after && after[d].world == presences[d].world
    ensures WellKept(after, y)
  {
    forall id | id in y.cargo ensures Kept(after, y.timers, id, SlotOf(y, id)) {
      KeptStays(presences, after, y.timers, y.timers, id, SlotOf(y, id));
    }
  }

  // ---------- Claims and updates ----------

  lemma ClaimedSlot(presences: Presences, y: Yard, c: ClientId, id: CargoId, now: int)
    requires SideTablesMatch(y) && Claim(presences, y, c, id, now).accepted
    ensures
      var z := Claim(presences, y, c, id, now).yard;
      && SideTablesMatch(z) && SameLineage(y, z) && z.timers == y.timers
      && (forall other :: other in y.cargo && other != id ==> SlotOf(z, other) == SlotOf(y, other))
      && SlotOf(z, id) == SlotOf(y, id).(state := z.cargo[id], untouched := None)
      && Beside(presences, z.cargo[id]) && z.cargo[id].at == y.cargo[id].at
  {
  }

  lemma ClaimKeeps(presences: Presences, y: Yard, c: ClientId, id: CargoId, now: int)
    requires WellKept(presences, y)
    ensures WellKept(presences, Claim(presences, y, c, id, now).yard)
  {
    var h := Claim(presences, y, c, id, now);
    if h.accepted {
      ClaimedSlot(presences, y, c, id, now);
      LineageStays(y, h.yard);
      KeptWithLess(presences, y.timers, id, SlotOf(y, id), SlotOf(h.yard, id));
      OthersAreKept(presences, y, h.yard, id);
    }
  }

  lemma MovedSlot(y: Yard, c: ClientId, message: CargoMessage, now: int)
    requires message.id in y.cargo && SideTablesMatch(y)
    ensures
      var id, z := message.id, Moved(y, c, message, now);
      && SideTablesMatch(z) && SameLineage(y, z) && y.timers <= z.timers
      && (forall other :: other in y.cargo && other != id ==> SlotOf(z, other) == SlotOf(y, other))
      && SlotOf(z, id) == SlotOf(y, id).(state := z.cargo[id])
      && z.cargo[id].owner == Some(c) && z.cargo[id].world == y.cargo[id].world
  {
  }

  lemma MovedIsPunctual(y: Yard, c: ClientId, message: CargoMessage, now: int)
    requires message.id in y.cargo && Punctual(y.timers)
    ensures Punctual(Moved(y, c, message, now).timers)
  {
  }

  lemma TouchedSlot(y: Yard, id: CargoId, touching: bool, now: int)
    requires id in y.cargo && SideTablesMatch(y)
    ensures
      var z := NoteTouch(y, id, touching, now);
      && SideTablesMatch(z) && SameLineage(y, z) && z.cargo == y.cargo
      && (forall other :: other in y.cargo && other != id ==> SlotOf(z, other) == SlotOf(y, other))
      && SlotOf(z, id) == SlotOf(y, id).(
           untouched := if touching then None else if id in y.untouched then Some(y.untouched[id]) else Some(now))
  {
  }

  lemma ArmingTwice(timers: multiset<Armed>, one: Timer, due: int, other: Timer, later: int, latest: int)
    requires Punctual(timers) && one.AutoRight? && due >= one.since + AUTO_RIGHT_DELAY && other.Cleanup? && due >= latest
    ensures
      var armed := Arm(Arm(timers, one, due), other, later);
      timers <= armed && Punctual(armed) && IsArmed(armed, one, latest)
  {
    var first := Arm(timers, one, due);
    ArmingGrows(timers, one, due);
    ArmingIsPunctual(timers, one, due);
    ArmingGrows(first, other, later);
    ArmingIsPunctual(first, other, later);
    assert Armed(one, due) in Arm(first, other, later);
    ArmedIsArmed(Arm(first, other, later), one, due, latest);
  }

  lemma WaitTimersArm(y: Yard, id: CargoId, touching: bool, now: int)
    requires Punctual(y.timers)
    ensures y.timers <= WaitTimers(y, id, touching, now) && Punctual(WaitTimers(y, id, touching, now))
    ensures !touching && id !in y.untouched ==>
      IsArmed(WaitTimers(y, id, touching, now), AutoRight(id, now), now + AUTO_RIGHT_DELAY)
  {
    if !touching && id !in y.untouched {
      var touched := if id in y.touched then y.touched[id] else now;
      ArmingTwice(
        y.timers, AutoRight(id, now), now + AUTO_RIGHT_DELAY, Cleanup(id, touched), Max(now, touched + CLEANUP_AGE),
        now + AUTO_RIGHT_DELAY);
    }
  }

  lemma DistantSlot(y: Yard, id: CargoId, now: int)
    requires id in y.cargo && SideTablesMatch(y)
    ensures
      var z := NoteDistance(y, id, now);
      && SideTablesMatch(z) && SameLineage(y, z) && z.cargo == y.cargo
      && (forall other :: other in y.cargo && other != id ==> SlotOf(z, other) == SlotOf(y, other))
      && SlotOf(z, id) == SlotOf(y, id).(away := Entry(z.away, id))
      && (id in z.away ==> id !in y.replaced && Outside(SlotOf(z, id)))
      && (id in z.away && id in y.away ==> z.away[id] == y.away[id])
  {
  }

  lemma ArmingOnce(timers: multiset<Armed>, timer: Timer, due: int)
    requires Punctual(timers) && timer.Replenish? && due >= timer.since + REPLENISH_DELAY
    ensures
      var armed := Arm(timers, timer, due);
      timers <= armed && Punctual(armed) && IsArmed(armed, timer, due)
  {
    ArmingGrows(timers, timer, due);
    ArmingIsPunctual(timers, timer, due);
    ArmedIsArmed(Arm(timers, timer, due), timer, due, due);
  }

  lemma DistanceTimersArm(y: Yard, id: CargoId, now: int)
    requires id in y.cargo && id in y.spawns && Punctual(y.timers)
    ensures
      var z := NoteDistance(y, id, now);
      && y.timers <= z.timers && Punctual(z.timers)
      && (id in z.away && id !in y.away ==> IsArmed(z.timers, Replenish(id, z.away[id]), z.away[id] + REPLENISH_DELAY))
  {
    var z := NoteDistance(y, id, now);
    if id in z.away && id !in y.away {
      ArmingOnce(y.timers, Replenish(id, now), now + REPLENISH_DELAY);
    }
  }

  /** The wait to be righted after a touch was noted. */
  lemma TouchIsTracked(y: Yard, id: CargoId, touching: bool, now: int, slot: Slot)
    requires Punctual(y.timers) && slot.untouched == Entry(y.untouched, id)
    requires slot.untouched.Some? ==>
      IsArmed(y.timers, AutoRight(id, slot.untouched.value), slot.untouched.value + AUTO_RIGHT_DELAY)
    ensures
      var untouched := if touching then None else if id in y.untouched then Some(y.untouched[id]) else Some(now);
      untouched.Some? ==>
        IsArmed(WaitTimers(y, id, touching, now), AutoRight(id, untouched.value), untouched.value + AUTO_RIGHT_DELAY)
  {
    WaitTimersArm(y, id, touching, now);
    if !touching && id in y.untouched {
      ArmedStays(y.timers, WaitTimers(y, id, touching, now), AutoRight(id, y.untouched[id]), y.untouched[id] + AUTO_RIGHT_DELAY);
    }
  }

  function Updated(y: Yard, c: ClientId, message: CargoMessage, now: int): (z: Yard)
    requires y.cargo.Keys == y.spawns.Keys && message.id in y.cargo
  {
    NoteDistance(NoteTouch(Moved(y, c, message, now), message.id, message.touching, now), message.id, now)
  }

  lemma UpdateTables(y: Yard, c: ClientId, message: CargoMessage, now: int)
    requires SideTablesMatch(y) && Punctual(y.timers) && message.id in y.cargo
    ensures
      var id, z := message.id, Updated(y, c, message, now);
      && SideTablesMatch(z) && SameLineage(y, z) && Punctual(z.timers) && y.timers <= z.timers
      && z.cargo[id].owner == Some(c) && z.cargo[id].world == y.cargo[id].world
      && forall other :: other in y.cargo && other != id ==> SlotOf(z, other) == SlotOf(y, other)
  {
    var id, moved := message.id, Moved(y, c, message, now);
    var noted := NoteTouch(moved, id, message.touching, now);
    MovedSlot(y, c, message, now);
    MovedIsPunctual(y, c, message, now);
    TouchedSlot(moved, id, message.touching, now);
    WaitTimersArm(moved, id, message.touching, now);
    DistantSlot(noted, id, now);
    DistanceTimersArm(noted, id, now);
  }

  lemma UpdateTracks(y: Yard, c: ClientId, message: CargoMessage, now: int)
    requires SideTablesMatch(y) && Punctual(y.timers) && message.id in y.cargo
    requires Tracked(y.timers, message.id, SlotOf(y, message.id))
    ensures
      var id, z := message.id, Updated(y, c, message, now);
      id in z.cargo && id in z.spawns && Tracked(z.timers, id, SlotOf(z, id))
  {
    var id, moved := message.id, Moved(y, c, message, now);
    var noted := NoteTouch(moved, id, message.touching, now);
    var slot, z := SlotOf(y, id), NoteDistance(noted, id, now);
    MovedSlot(y, c, message, now);
    MovedIsPunctual(y, c, message, now);
    TrackedWaits(y, moved, id, slot);
    TouchIsTracked(moved, id, message.touching, now, slot);
    TouchedSlot(moved, id, message.touching, now);
    WaitTimersArm(moved, id, message.touching, now);
    DistantSlot(noted, id, now);
    DistanceTimersArm(noted, id, now);
    TrackedFromParts(moved, noted, z, id, slot);
  }

  lemma TrackedWaits(y: Yard, moved: Yard, id: CargoId, slot: Slot)
    requires Tracked(y.timers, id, slot) && y.timers <= moved.timers
    ensures slot.untouched.Some? ==>
      IsArmed(moved.timers, AutoRight(id, slot.untouched.value), slot.untouched.value + AUTO_RIGHT_DELAY)
    ensures slot.away.Some? ==> IsArmed(moved.timers, Replenish(id, slot.away.value), slot.away.value + REPLENISH_DELAY)
  {
    TrackedStays(y.timers, moved.timers, id, slot);
  }

  lemma TrackedFromParts(moved: Yard, noted: Yard, z: Yard, id: CargoId, slot: Slot)
    requires id in noted.cargo && id in noted.spawns && id in z.cargo && id in z.spawns
    requires moved.timers <= noted.timers <= z.timers && noted.away == moved.away && slot.away == Entry(moved.away, id)
    requires slot.away.Some? ==> IsArmed(moved.timers, Replenish(id, slot.away.value), slot.away.value + REPLENISH_DELAY)
    requires var untouched := SlotOf(noted, id).untouched;
      untouched.Some? ==> IsArmed(noted.timers, AutoRight(id, untouched.value), untouched.value + AUTO_RIGHT_DELAY)
    requires SlotOf(z, id) == SlotOf(noted, id).(away := Entry(z.away, id))
    requires id in z.away ==> id !in z.replaced && Outside(SlotOf(z, id))
    requires id in z.away && id in noted.away ==> z.away[id] == noted.away[id]
    requires id in z.away && id !in noted.away ==> IsArmed(z.timers, Replenish(id, z.away[id]), z.away[id] + REPLENISH_DELAY)
    ensures Tracked(z.timers, id, SlotOf(z, id))
  {
    var untouched := SlotOf(noted, id).untouched;
    if untouched.Some? {
      ArmedStays(noted.timers, z.timers, AutoRight(id, untouched.value), untouched.value + AUTO_RIGHT_DELAY);
    }
    if id in z.away && id in noted.away {
      ArmedStays(moved.timers, z.timers, Replenish(id, z.away[id]), z.away[id] + REPLENISH_DELAY);
    }
  }

  lemma UpdateKeeps(presences: Presences, y: Yard, c: ClientId, message: CargoMessage, now: int)
    requires WellKept(presences, y)
    ensures WellKept(presences, Update(presences, y, c, message, now).yard)
  {
    var h := Update(presences, y, c, message, now);
    if h.accepted {
      UpdateTables(y, c, message, now);
      LineageStays(y, h.yard);
      UpdateTracks(y, c, message, now);
      OthersAreKept(presences, y, h.yard, message.id);
    }
  }

  // ---------- Timers going off ----------

  lemma ReleasedSlot(presences: Presences, y: Yard, id: CargoId, owner: ClientId, expires: int, now: int)
    requires SideTablesMatch(y)
    ensures
      var z := FireRelease(presences, y, id, owner, expires, now);
      && SideTablesMatch(z) && SameLineage(y, z) && z.timers == y.timers
      && (forall other :: other in y.cargo && other != id ==> SlotOf(z, other) == SlotOf(y, other))
      && (id in y.cargo && y.cargo[id].owner == Some(owner) && y.cargo[id].claimExpires == expires && !Beside(presences, y.cargo[id]) ==>
            SlotOf(z, id) == SlotOf(y, id).(state := z.cargo[id]) && z.cargo[id].owner == None && z.cargo[id].at == y.cargo[id].at)
      && (id in y.cargo && !(y.cargo[id].owner == Some(owner) && y.cargo[id].claimExpires == expires && !Beside(presences, y.cargo[id])) ==>
            SlotOf(z, id) == SlotOf(y, id))
  {
  }

  lemma ReleaseKeeps(presences: Presences, y: Yard, fired: Armed, now: int)
    requires WellKept(presences, y) && fired in y.timers && fired.timer.Release?
    ensures WellKept(presences, Fire(presences, y, fired, now))
  {
    var left, id := y.(timers := y.timers - multiset{fired}), fired.timer.id;
    var z := Fire(presences, y, fired, now);
    ReleasedSlot(presences, left, id, fired.timer.owner, fired.timer.expires, now);
    LineageStays(left, z);
    FiringIsPunctual(y.timers, fired);
    forall other | other in z.cargo ensures Kept(presences, z.timers, other, SlotOf(z, other)) {
      assert SlotOf(left, other) == SlotOf(y, other);
      if SlotOf(z, other) != SlotOf(y, other) {
        KeptWithLess(presences, y.timers, other, SlotOf(y, other), SlotOf(z, other));
      }
      KeptDisarmed(presences, y.timers, fired, other, SlotOf(z, other));
    }
  }

  lemma RightedSlot(y: Yard, id: CargoId, since: int, now: int)
    requires SideTablesMatch(y) && now - since >= AUTO_RIGHT_DELAY
    ensures
      var z := FireAutoRight(y, id, since, now);
      && SideTablesMatch(z) && SameLineage(y, z) && z.timers == y.timers
      && (forall other :: other in y.cargo && other != id ==> SlotOf(z, other) == SlotOf(y, other))
      && (id in y.untouched && y.untouched[id] == since ==>
            SlotOf(z, id) == SlotOf(y, id).(state := z.cargo[id], untouched := None)
            && z.cargo[id].owner == None && z.cargo[id].at == y.cargo[id].at)
      && (id in y.cargo && !(id in y.untouched && y.untouched[id] == since) ==> SlotOf(z, id) == SlotOf(y, id))
  {
  }

  lemma AutoRightKeeps(presences: Presences, y: Yard, fired: Armed, now: int)
    requires WellKept(presences, y) && fired in y.timers && fired.timer.AutoRight? && now >= fired.due
    ensures WellKept(presences, Fire(presences, y, fired, now))
  {
    var left, id := y.(timers := y.timers - multiset{fired}), fired.timer.id;
    var z := Fire(presences, y, fired, now);
    RightedSlot(left, id, fired.timer.since, now);
    LineageStays(left, z);
    FiringIsPunctual(y.timers, fired);
    forall other | other in z.cargo ensures Kept(presences, z.timers, other, SlotOf(z, other)) {
      assert SlotOf(left, other) == SlotOf(y, other);
      if SlotOf(z, other) != SlotOf(y, other) {
        KeptWithLess(presences, y.timers, other, SlotOf(y, other), SlotOf(z, other));
      }
      KeptDisarmed(presences, y.timers, fired, other, SlotOf(z, other));
    }
  }

  /** Clearing some away leaves the rest distinct. */
  lemma LineageOfFewer(y: Yard, z: Yard)
    requires SideTablesMatch(y) && OneUnreplacedEach(y) && SideTablesMatch(z) && z.cargo.Keys <= y.cargo.Keys
    requires forall other :: other in z.cargo ==> SlotOf(z, other) == SlotOf(y, other)
    ensures OneUnreplacedEach(z)
  {
    forall a, b | a in z.cargo && b in z.cargo && a !in z.replaced && b !in z.replaced && a != b
      ensures z.cargo[a].world != z.cargo[b].world || z.spawns[a] != z.spawns[b]
    {
      assert SlotOf(z, a) == SlotOf(y, a) && SlotOf(z, b) == SlotOf(y, b);
    }
  }

  lemma ClearedSlot(y: Yard, id: CargoId, touched: int, now: int)
    requires SideTablesMatch(y)
    ensures
      var z := FireCleanup(y, id, touched, now);
      && SideTablesMatch(z) && z.timers == y.timers && z.cargo.Keys <= y.cargo.Keys
      && (forall other :: other in z.cargo ==> SlotOf(z, other) == SlotOf(y, other))
      && y.cargo.Keys - {id} <= z.cargo.Keys
  {
  }

  lemma CleanupKeeps(presences: Presences, y: Yard, fired: Armed, now: int)
    requires WellKept(presences, y) && fired in y.timers && fired.timer.Cleanup?
    ensures WellKept(presences, Fire(presences, y, fired, now))
  {
    var left := y.(timers := y.timers - multiset{fired});
    var z := Fire(presences, y, fired, now);
    ClearedSlot(left, fired.timer.id, fired.timer.touched, now);
    LineageOfFewer(left, z);
    FiringIsPunctual(y.timers, fired);
    forall other | other in z.cargo ensures Kept(presences, z.timers, other, SlotOf(z, other)) {
      assert SlotOf(left, other) == SlotOf(y, other);
      KeptDisarmed(presences, y.timers, fired, other, SlotOf(y, other));
    }
  }

  /** When a replenishment takes effect, and the number of the cargo it makes. */
  predicate Replenishes(y: Yard, source: CargoId, since: int, now: int)
    requires y.cargo.Keys == y.spawns.Keys
  {
    && source in y.cargo && source in y.away && y.away[source] == since && source !in y.replaced
    && now - since >= REPLENISH_DELAY && OutsideSpawn(y, source)
  }

  lemma ReplenishTables(y: Yard, source: CargoId, since: int, now: int)
    requires SideTablesMatch(y) && Replenishes(y, source, since, now)
    ensures
      var z, n := FireReplenish(y, source, since, now), Job(FreshJob(y.cargo, y.nextId));
      && SideTablesMatch(z) && z.cargo.Keys == y.cargo.Keys + {n} && n !in y.cargo
      && z.replaced == y.replaced + {source} && z.spawns == y.spawns[n := y.spawns[source]]
      && z.cargo == y.cargo[n := z.cargo[n]] && z.cargo[n].world == y.cargo[source].world
      && z.cargo[n].owner == None && z.cargo[n].at == y.spawns[source]
      && z.away == y.away - {source} && z.untouched == y.untouched
      && z.timers == Arm(y.timers, Cleanup(n, now), now + CLEANUP_AGE)
  {
  }

  /** A new cargo from the spawn of one that is now replaced takes its place. */
  lemma HeirIsUnreplaced(y: Yard, z: Yard, source: CargoId, n: CargoId)
    requires SideTablesMatch(y) && OneUnreplacedEach(y) && source in y.cargo && source !in y.replaced && n !in y.cargo
    requires z.cargo.Keys == z.spawns.Keys == y.cargo.Keys + {n} && z.replaced == y.replaced + {source}
    requires forall a :: a in y.cargo ==> z.cargo[a] == y.cargo[a] && z.spawns[a] == y.spawns[a]
    requires z.cargo[n].world == y.cargo[source].world && z.spawns[n] == y.spawns[source]
    ensures OneUnreplacedEach(z)
  {
    forall a, b | a in z.cargo && b in z.cargo && a !in z.replaced && b !in z.replaced && a != b
      ensures z.cargo[a].world != z.cargo[b].world || z.spawns[a] != z.spawns[b]
    {
      var c, d := if a == n then source else a, if b == n then source else b;
      assert c in y.cargo && d in y.cargo && c !in y.replaced && d !in y.replaced && c != d;
    }
  }

  /** The replacement takes over its source's line of descent. */
  lemma ReplenishKeepsLineage(y: Yard, source: CargoId, since: int, now: int)
    requires SideTablesMatch(y) && OneUnreplacedEach(y)
    ensures
      var z := FireReplenish(y, source, since, now);
      && SideTablesMatch(z) && OneUnreplacedEach(z)
      && (Replenishes(y, source, since, now) ==> source !in y.replaced && source in z.replaced && |z.cargo| == |y.cargo| + 1)
      && (!Replenishes(y, source, since, now) ==> z == y)
  {
    if Replenishes(y, source, since, now) {
      ReplenishTables(y, source, since, now);
      HeirIsUnreplaced(y, FireReplenish(y, source, since, now), source, Job(FreshJob(y.cargo, y.nextId)));
    }
  }

  lemma ReplenishedSlots(y: Yard, source: CargoId, since: int, now: int)
    requires SideTablesMatch(y) && Replenishes(y, source, since, now)
    ensures
      var z, n := FireReplenish(y, source, since, now), Job(FreshJob(y.cargo, y.nextId));
      && z.cargo.Keys == z.spawns.Keys == y.cargo.Keys + {n} && n !in y.cargo
      && (forall other :: other in y.cargo && other != source ==> SlotOf(z, other) == SlotOf(y, other))
      && SlotOf(z, source) == SlotOf(y, source).(away := None, replaced := true)
      && SlotOf(z, n) == Slot(z.cargo[n], y.spawns[source], None, None, false) && z.cargo[n].owner == None
  {
    ReplenishTables(y, source, since, now);
  }

  lemma AwayIsReplenished(y: Yard, left: Yard, id: CargoId, since: int, now: int)
    requires SideTablesMatch(y) && id in y.cargo && Tracked(y.timers, id, SlotOf(y, id))
    requires left.cargo == y.cargo && left.spawns == y.spawns && left.away == y.away && left.replaced == y.replaced
    requires now - since >= REPLENISH_DELAY
    ensures Replenishes(left, id, since, now) <==> SlotOf(y, id).away == Some(since)
  {
  }

  /** The source and every bystander stay in order when `source` is replaced and `fired` is spent. */
  lemma ReplenishedAreKept(presences: Presences, y: Yard, z: Yard, fired: Armed, source: CargoId, n: CargoId, more: Timer, due: int)
    requires WellKept(presences, y) && fired.timer.Replenish? && fired.timer.id == source
    requires z.cargo.Keys == z.spawns.Keys == y.cargo.Keys + {n} && n !in y.cargo && source in y.cargo
    requires z.timers == Arm(y.timers - multiset{fired}, more, due)
    requires forall other :: other in y.cargo && other != source ==> SlotOf(z, other) == SlotOf(y, other)
    requires SlotOf(z, source) == SlotOf(y, source).(away := None, replaced := true)
    requires SlotOf(z, n) == Slot(z.cargo[n], z.spawns[n], None, None, false) && z.cargo[n].owner == None
    ensures forall other :: other in z.cargo ==> Kept(presences, z.timers, other, SlotOf(z, other))
  {
    var spent := y.timers - multiset{fired};
    ArmingGrows(spent, more, due);
    forall other | other in z.cargo ensures Kept(presences, z.timers, other, SlotOf(z, other)) {
      if other != n {
        assert Kept(presences, y.timers, other, SlotOf(y, other));
        KeptWithLess(presences, y.timers, other, SlotOf(y, other), SlotOf(z, other));
        KeptDisarmed(presences, y.timers, fired, other, SlotOf(z, other));
        KeptStays(presences, presences, spent, z.timers, other, SlotOf(z, other));
      }
    }
  }

  lemma DisarmedAreKept(presences: Presences, y: Yard, fired: Armed)
    requires WellKept(presences, y) && fired.timer.Replenish?
    requires fired.timer.id in y.cargo ==> SlotOf(y, fired.timer.id).away != Some(fired.timer.since)
    ensures WellKept(presences, y.(timers := y.timers - multiset{fired}))
  {
    var left := y.(timers := y.timers - multiset{fired});
    FiringIsPunctual(y.timers, fired);
    forall other | other in left.cargo ensures Kept(presences, left.timers, other, SlotOf(left, other)) {
      assert SlotOf(left, other) == SlotOf(y, other);
      KeptDisarmed(presences, y.timers, fired, other, SlotOf(y, other));
    }
  }

  lemma ReplenishedTimers(y: Yard, fired: Armed, source: CargoId, since: int, now: int)
    requires Punctual(y.timers) && SideTablesMatch(y)
    requires Replenishes(y.(timers := y.timers - multiset{fired}), source, since, now)
    ensures Punctual(FireReplenish(y.(timers := y.timers - multiset{fired}), source, since, now).timers)
  {
    var left := y.(timers := y.timers - multiset{fired});
    ReplenishTables(left, source, since, now);
    FiringIsPunctual(y.timers, fired);
    ArmingIsPunctual(left.timers, Cleanup(Job(FreshJob(left.cargo, left.nextId)), now), now + CLEANUP_AGE);
  }

  lemma ReplenishTakesEffect(presences: Presences, y: Yard, fired: Armed, now: int)
    requires WellKept(presences, y) && fired.timer.Replenish?
    requires Replenishes(y.(timers := y.timers - multiset{fired}), fired.timer.id, fired.timer.since, now)
    ensures
      var z := FireReplenish(y.(timers := y.timers - multiset{fired}), fired.timer.id, fired.timer.since, now);
      z.spawns.Keys == z.cargo.Keys
      && forall other :: other in z.cargo ==> Kept(presences, z.timers, other, SlotOf(z, other))
  {
    var left, source, since := y.(timers := y.timers - multiset{fired}), fired.timer.id, fired.timer.since;
    var z, n := FireReplenish(left, source, since, now), Job(FreshJob(left.cargo, left.nextId));
    ReplenishedSlots(left, source, since, now);
    ReplenishTables(left, source, since, now);
    SameSlots(y, left);
    ReplenishedAreKept(presences, y, z, fired, source, n, Cleanup(n, now), now + CLEANUP_AGE);
  }

  lemma ReplenishKeeps(presences: Presences, y: Yard, fired: Armed, now: int)
    requires WellKept(presences, y) && fired in y.timers && fired.timer.Replenish? && now >= fired.due
    ensures WellKept(presences, Fire(presences, y, fired, now))
  {
    var left := y.(timers := y.timers - multiset{fired});
    var source, since := fired.timer.id, fired.timer.since;
    if Replenishes(left, source, since, now) {
      ReplenishKeepsLineage(left, source, since, now);
      ReplenishedTimers(y, fired, source, since, now);
      ReplenishTakesEffect(presences, y, fired, now);
    } else {
      UnreplenishedIsNotAway(presences, y, fired, now);
      DisarmedAreKept(presences, y, fired);
    }
  }

  /** A timer that comes to nothing was not the one its cargo waits for. */
  lemma UnreplenishedIsNotAway(presences: Presences, y: Yard, fired: Armed, now: int)
    requires WellKept(presences, y) && fired in y.timers && fired.timer.Replenish? && now >= fired.due
    requires !Replenishes(y.(timers := y.timers - multiset{fired}), fired.timer.id, fired.timer.since, now)
    ensures fired.timer.id in y.cargo ==> SlotOf(y, fired.timer.id).away != Some(fired.timer.since)
  {
    var source := fired.timer.id;
    if source in y.cargo {
      assert Kept(presences, y.timers, source, SlotOf(y, source));
      AwayIsReplenished(y, y.(timers := y.timers - multiset{fired}), source, fired.timer.since, now);
    }
  }

  lemma SameSlots(y: Yard, left: Yard)
    requires SideTablesMatch(y) && left == y.(timers := left.timers)
    ensures forall id :: id in y.cargo ==> SlotOf(left, id) == SlotOf(y, id)
  {
  }

  lemma FireKeeps(presences: Presences, y: Yard, fired: Armed, now: int)
    requires WellKept(presences, y) && fired in y.timers && now >= fired.due
    ensures WellKept(presences, Fire(presences, y, fired, now))
  {
    match fired.timer
    case Release(_, _, _) => ReleaseKeeps(presences, y, fired, now);
    case AutoRight(_, _) => AutoRightKeeps(presences, y, fired, now);
    case Replenish(_, _) => ReplenishKeeps(presences, y, fired, now);
    case Cleanup(_, _) => CleanupKeeps(presences, y, fired, now);
  }

  // ---------- What follows ----------

  lemma NewYardIsWellKept(presences: Presences, m: Manifest, now: int)
    requires DistinctSpawns(m)
    ensures WellKept(presences, InitialYard(m, now))
  {
  }

  lemma ReleaseFrees(presences: Presences, y: Yard, armed: Armed, id: CargoId, now: int)
    requires SideTablesMatch(y) && id in y.cargo && y.cargo[id].owner.Some? && !Beside(presences, y.cargo[id])
    requires armed.timer == Release(id, y.cargo[id].owner.value, y.cargo[id].claimExpires)
    ensures id in Fire(presences, y, armed, now).cargo && Fire(presences, y, armed, now).cargo[id].owner == None
  {
  }

  /** Cargo whose owner is not beside it has an armed timer whose going off frees it. */
  lemma AbandonedCargoCanBeFreed(presences: Presences, y: Yard, id: CargoId, now: int) returns (armed: Armed)
    requires WellKept(presences, y) && id in y.cargo && y.cargo[id].owner.Some? && !Beside(presences, y.cargo[id])
    ensures armed in y.timers
    ensures id in Fire(presences, y, armed, now).cargo && Fire(presences, y, armed, now).cargo[id].owner == None
  {
    armed := ArmedRelease(presences, y.timers, id, SlotOf(y, id));
    ReleaseFrees(presences, y, armed, id, now);
  }

  lemma ArmedRelease(presences: Presences, timers: multiset<Armed>, id: CargoId, slot: Slot) returns (armed: Armed)
    requires Kept(presences, timers, id, slot) && slot.state.owner.Some? && !Beside(presences, slot.state)
    ensures armed in timers && armed.timer == Release(id, slot.state.owner.value, slot.state.claimExpires)
  {
    armed :| armed in timers && armed.timer == Release(id, slot.state.owner.value, slot.state.claimExpires);
  }

  /** Untouched cargo has an armed timer whose going off, when it is due, rights and frees it. */
  lemma UntouchedCargoIsRighted(presences: Presences, y: Yard, id: CargoId, now: int) returns (armed: Armed)
    requires WellKept(presences, y) && id in y.untouched
    ensures armed in y.timers
    ensures now >= armed.due ==>
      var z := Fire(presences, y, armed, now);
      id in z.cargo && z.cargo[id].autoRight && z.cargo[id].owner == None && id !in z.untouched
  {
    assert Kept(presences, y.timers, id, SlotOf(y, id));
    armed :| armed in y.timers && armed.timer == AutoRight(id, y.untouched[id]) && armed.due >= y.untouched[id] + AUTO_RIGHT_DELAY;
  }

  /** Cargo carried off has an armed timer whose going off, when it is due, puts a replacement at its spawn. */
  lemma DistantCargoIsReplaced(presences: Presences, y: Yard, id: CargoId, now: int) returns (armed: Armed)
    requires WellKept(presences, y) && id in y.away
    ensures armed in y.timers
    ensures now >= armed.due ==>
      var z := Fire(presences, y, armed, now);
      var n := Job(FreshJob(y.cargo, y.nextId));
      && id in z.replaced && n !in y.cargo && n in z.cargo
      && z.cargo[n].at == y.spawns[id] && z.cargo[n].world == y.cargo[id].world
  {
    assert Kept(presences, y.timers, id, SlotOf(y, id));
    armed :| armed in y.timers && armed.timer == Replenish(id, y.away[id]) && armed.due >= y.away[id] + REPLENISH_DELAY;
    if now >= armed.due {
      var left := y.(timers := y.timers - multiset{armed});
      AwayIsReplenished(y, left, id, y.away[id], now);
      ReplenishTables(left, id, y.away[id], now);
    }
  }
}

/** How often a connection may report its presence, chat and sound its horn (internal/realtime/client.go). */
module RateLimits {

  // ---------- Presence: a token bucket ----------

  const PRESENCE_BURST := 5.0
  const PRESENCE_RATE := 20.0

  /** Instants are in seconds. */
  datatype Bucket = Bucket(tokens: real, last: real)

  function NewBucket(now: real): (b: Bucket) {
    Bucket(PRESENCE_BURST, now)
  }

  function Refill(b: Bucket, now: real): (r: Bucket) {
    var tokens := b.tokens + (now - b.last) * PRESENCE_RATE;
    Bucket(if tokens > PRESENCE_BURST then PRESENCE_BURST else tokens, now)
  }

  predicate Accepts(b: Bucket, now: real) {
    Refill(b, now).tokens >= 1.0
  }

  function Attempt(b: Bucket, now: real): (r: Bucket) {
    var full := Refill(b, now);
    if Accepts(b, now) then full.(tokens := full.tokens - 1.0) else full
  }

  ghost predicate Ascending(times: seq<real>) {
    forall i, j :: 0 <= i < j < |times| ==> times[i] <= times[j]
  }

  /** Attempts in order of time, none before the connection began. */
  ghost predicate Since(start: real, attempts: seq<real>) {
    Ascending(attempts) && forall i :: 0 <= i < |attempts| ==> start <= attempts[i]
  }

  function Latest(start: real, attempts: seq<real>): (t: real) {
    if attempts == [] then start else attempts[|attempts| - 1]
  }

  lemma SinceFront(start: real, attempts: seq<real>)
    requires Since(start, attempts) && attempts != []
    ensures Since(start, attempts[..|attempts| - 1])
    ensures Latest(start, attempts[..|attempts| - 1]) <= attempts[|attempts| - 1]
  {
  }

  /** The bucket after a history of attempts. */
  function AfterAttempts(start: real, attempts: seq<real>): (b: Bucket) {
    if attempts == [] then NewBucket(start)
    else Attempt(AfterAttempts(start, attempts[..|attempts| - 1]), attempts[|attempts| - 1])
  }

  /** How many attempts with a time in [a, b] were accepted. */
  function AcceptedBetween(start: real, attempts: seq<real>, a: real, b: real): (n: nat) {
    if attempts == [] then 0
    else
      var front, now := attempts[..|attempts| - 1], attempts[|attempts| - 1];
      AcceptedBetween(start, front, a, b) + (if a <= now <= b && Accepts(AfterAttempts(start, front), now) then 1 else 0)
  }

  lemma {:induction false} BucketFollowsTime(start: real, attempts: seq<real>)
    requires Since(start, attempts)
    ensures
      var b := AfterAttempts(start, attempts);
      0.0 <= b.tokens <= PRESENCE_BURST && b.last == Latest(start, attempts)
  {
    if attempts != [] {
      var front := attempts[..|attempts| - 1];
      SinceFront(start, attempts);
      BucketFollowsTime(start, front);
    }
  }

  lemma {:induction false} NothingBefore(start: real, attempts: seq<real>, a: real, b: real)
    requires Ascending(attempts) && (attempts != [] ==> attempts[|attempts| - 1] < a)
    ensures AcceptedBetween(start, attempts, a, b) == 0
  {
    if attempts != [] {
      NothingBefore(start, attempts[..|attempts| - 1], a, b);
    }
  }

  /** Every token taken since `a` was in the full bucket, or flowed in since. */
  lemma {:induction false} TakenAndLeft(start: real, attempts: seq<real>, a: real, b: real)
    requires Since(start, attempts)
    requires attempts != [] && a <= attempts[|attempts| - 1] <= b
    ensures AcceptedBetween(start, attempts, a, b) as real + AfterAttempts(start, attempts).tokens
      <= PRESENCE_BURST + PRESENCE_RATE * (attempts[|attempts| - 1] - a)
  {
    var front, now := attempts[..|attempts| - 1], attempts[|attempts| - 1];
    SinceFront(start, attempts);
    BucketFollowsTime(start, front);
    if front != [] && front[|front| - 1] >= a {
      TakenAndLeft(start, front, a, b);
    } else {
      NothingBefore(start, front, a, b);
    }
  }

  /** Over any whole history, at most 5 + 20 (b - a) presences are accepted between a and b. */
  lemma {:induction false} PresencesAreBounded(start: real, attempts: seq<real>, a: real, b: real)
    requires Since(start, attempts) && a <= b
    ensures AcceptedBetween(start, attempts, a, b) as real <= 5.0 + 20.0 * (b - a)
  {
    if attempts != [] {
      var front, now := attempts[..|attempts| - 1], attempts[|attempts| - 1];
      SinceFront(start, attempts);
      if a <= now <= b {
        TakenAndLeft(start, attempts, a, b);
        BucketFollowsTime(start, attempts);
      } else {
        PresencesAreBounded(start, front, a, b);
      }
    }
  }

  /** Whether the attempt after some others is accepted. */
  predicate TakenAt(start: real, attempts: seq<real>, k: nat)
    requires k < |attempts|
  {
    Accepts(AfterAttempts(start, attempts[..k]), attempts[k])
  }

  lemma {:induction false} FullUntilFive(start: real, attempts: seq<real>)
    requires Since(start, attempts) && |attempts| <= 5
    ensures AfterAttempts(start, attempts).tokens >= 5.0 - |attempts| as real
  {
    if attempts != [] {
      SinceFront(start, attempts);
      FullUntilFive(start, attempts[..|attempts| - 1]);
      BucketFollowsTime(start, attempts[..|attempts| - 1]);
    }
  }

  /** The first five attempts are accepted however close they are. */
  lemma FiveAtOnceAreAccepted(start: real, attempts: seq<real>, k: nat)
    requires Since(start, attempts) && k < |attempts| && k < 5
    ensures TakenAt(start, attempts, k)
  {
    var front := attempts[..k];
    assert Since(start, front);
    FullUntilFive(start, front);
    BucketFollowsTime(start, front);
    if k > 0 { assert attempts[k - 1] <= attempts[k]; }
  }

  /** And so is every attempt that keeps a twentieth of a second from the one before it. */
  lemma PacedAttemptsAreAccepted(start: real, attempts: seq<real>, k: nat)
    requires Since(start, attempts) && k < |attempts| && (k > 0 ==> attempts[k] - attempts[k - 1] >= 0.05)
    ensures TakenAt(start, attempts, k)
  {
    var front := attempts[..k];
    assert Since(start, front);
    BucketFollowsTime(start, front);
  }

  // ---------- Chat and sounds: sliding windows ----------

  /** The times after `cutoff`, in order. */
  function Kept(times: seq<real>, cutoff: real): (kept: seq<real>)
    ensures |kept| <= |times|
    ensures forall t :: t in kept ==> t in times && t > cutoff
  {
    if times == [] then []
    else
      var front, last := Kept(times[..|times| - 1], cutoff), times[|times| - 1];
      if last > cutoff then front + [last] else front
  }

  datatype Window = Window(times: seq<real>, allowed: bool)

  const CHATS_PER_MINUTE := 15
  const CHATS_PER_BURST := 3
  const SOUNDS_PER_SECOND := 8

  function AllowChat(times: seq<real>, now: real): (w: Window) {
    var kept := Kept(times, now - 60.0);
    if |kept| >= CHATS_PER_MINUTE || |Kept(kept, now - 10.0)| >= CHATS_PER_BURST then Window(kept, false)
    else Window(kept + [now], true)
  }

  function AllowSound(times: seq<real>, now: real): (w: Window) {
    var kept := Kept(times, now - 1.0);
    if |kept| >= SOUNDS_PER_SECOND then Window(kept, false) else Window(kept + [now], true)
  }

  lemma {:induction false} KeptTwice(times: seq<real>, first: real, second: real)
    requires first <= second
    ensures Kept(Kept(times, first), second) == Kept(times, second)
  {
    if times != [] {
      var front, last := times[..|times| - 1], times[|times| - 1];
      KeptTwice(front, first, second);
      if last > first {
        var kept := Kept(times, first);
        assert kept[..|kept| - 1] == Kept(front, first);
      }
    }
  }

  /** In ascending times, everything from a kept one on is kept. */
  lemma {:induction false} KeptSuffix(times: seq<real>, i: nat, cutoff: real)
    requires Ascending(times) && i < |times| && times[i] > cutoff
    ensures |Kept(times, cutoff)| >= |times| - i
  {
    if i < |times| - 1 {
      KeptSuffix(times[..|times| - 1], i, cutoff);
    }
  }

  /** Any two times that are `n` apart in the list are at least `width` apart. */
  ghost predicate Spaced(times: seq<real>, n: nat, width: real) {
    forall i, j :: 0 <= i && i + n <= j < |times| ==> times[j] - times[i] >= width
  }

  lemma SpacedOneMore(times: seq<real>, now: real, n: nat, width: real)
    requires n > 0 && Spaced(times, n, width) && Ascending(times + [now]) && |Kept(times, now - width)| < n
    ensures Spaced(times + [now], n, width)
  {
    var more := times + [now];
    assert Ascending(times) by {
      forall i, j | 0 <= i < j < |times| ensures times[i] <= times[j] {
        assert more[i] <= more[j];
      }
    }
    forall i, j | 0 <= i && i + n <= j < |more| ensures more[j] - more[i] >= width {
      if j == |times| && times[i] > now - width {
        KeptSuffix(times, i, now - width);
      }
    }
  }

  /** How many times lie in [a, b). */
  function CountIn(times: seq<real>, a: real, b: real): (n: nat) {
    if times == [] then 0
    else CountIn(times[..|times| - 1], a, b) + (if a <= times[|times| - 1] < b then 1 else 0)
  }

  lemma {:induction false} CountAfter(times: seq<real>, i: nat, a: real, b: real)
    requires i <= |times| && forall k :: 0 <= k < i ==> times[k] < a
    ensures CountIn(times, a, b) <= |times| - i
  {
    if times != [] {
      CountAfter(times[..|times| - 1], if i == |times| then i - 1 else i, a, b);
    }
  }

  lemma {:induction false} SpacedCount(times: seq<real>, n: nat, width: real, a: real)
    requires Spaced(times, n, width) && Ascending(times)
    ensures CountIn(times, a, a + width) <= n
  {
    if times != [] {
      var last := times[|times| - 1];
      if a <= last < a + width {
        if |times| > n {
          forall k | 0 <= k < |times| - n ensures times[k] < a {
            assert times[|times| - 1] - times[k] >= width;
          }
          CountAfter(times, |times| - n, a, a + width);
        } else {
          CountAfter(times, 0, a, a + width);
        }
      } else {
        SpacedCount(times[..|times| - 1], n, width, a);
      }
    }
  }

  // ---------- Whole histories ----------

  /** `accepted` lists every accepted time so far; `times` is what the limiter still remembers of it. */
  datatype History = History(accepted: seq<real>, times: seq<real>)

  function Note(h: History, w: Window, now: real): (r: History) {
    History(if w.allowed then h.accepted + [now] else h.accepted, w.times)
  }

  function ChatHistory(attempts: seq<real>): (h: History) {
    if attempts == [] then History([], [])
    else
      var before, now := ChatHistory(attempts[..|attempts| - 1]), attempts[|attempts| - 1];
      Note(before, AllowChat(before.times, now), now)
  }

  function SoundHistory(attempts: seq<real>): (h: History) {
    if attempts == [] then History([], [])
    else
      var before, now := SoundHistory(attempts[..|attempts| - 1]), attempts[|attempts| - 1];
      Note(before, AllowSound(before.times, now), now)
  }

  /** The limiter forgets only what is out of its window. */
  ghost predicate Remembers(h: History, width: real, now: real) {
    && Ascending(h.accepted) && (h.accepted != [] ==> h.accepted[|h.accepted| - 1] <= now)
    && (forall cutoff :: cutoff >= now - width ==> Kept(h.times, cutoff) == Kept(h.accepted, cutoff))
  }

  lemma KeptAlike(times: seq<real>, accepted: seq<real>, now: real, floor: real, cutoff: real, allowed: bool)
    requires floor <= cutoff && floor < now
    requires Kept(times, floor) == Kept(accepted, floor)
    ensures
      var kept := Kept(accepted, floor);
      if allowed then Kept(kept + [now], cutoff) == Kept(accepted + [now], cutoff) else Kept(kept, cutoff) == Kept(accepted, cutoff)
  {
    var kept := Kept(accepted, floor);
    KeptTwice(accepted, floor, cutoff);
    if allowed {
      assert (kept + [now])[..|kept|] == kept;
      assert (accepted + [now])[..|accepted|] == accepted;
    }
  }

  function Noted(h: History, kept: seq<real>, now: real, allowed: bool): (r: History) {
    if allowed then History(h.accepted + [now], kept + [now]) else History(h.accepted, kept)
  }

  lemma RememberingGoesOn(h: History, width: real, last: real, now: real, allowed: bool)
    requires width > 0.0 && Remembers(h, width, last) && last <= now
    ensures
      var kept := Kept(h.times, now - width);
      kept == Kept(h.accepted, now - width) && Remembers(Noted(h, kept, now, allowed), width, now)
  {
    var kept := Kept(h.times, now - width);
    var next := Noted(h, kept, now, allowed);
    forall cutoff | cutoff >= now - width ensures Kept(next.times, cutoff) == Kept(next.accepted, cutoff) {
      KeptAlike(h.times, h.accepted, now, now - width, cutoff, allowed);
    }
    NotedAscends(h, kept, now, allowed);
  }

  lemma NotedAscends(h: History, kept: seq<real>, now: real, allowed: bool)
    requires Ascending(h.accepted) && (h.accepted != [] ==> h.accepted[|h.accepted| - 1] <= now)
    ensures
      var accepted := Noted(h, kept, now, allowed).accepted;
      Ascending(accepted) && (accepted != [] ==> accepted[|accepted| - 1] <= now)
  {
    if h.accepted != [] {
      forall i | 0 <= i < |h.accepted| ensures h.accepted[i] <= now {
        assert h.accepted[i] <= h.accepted[|h.accepted| - 1];
      }
    }
  }

  ghost predicate ChatsInOrder(h: History, now: real) {
    && Remembers(h, 60.0, now)
    && Spaced(h.accepted, CHATS_PER_MINUTE, 60.0) && Spaced(h.accepted, CHATS_PER_BURST, 10.0)
  }

  /** How many times are later than `cutoff`. */
  function Later(times: seq<real>, cutoff: real): (n: nat) {
    if times == [] then 0 else Later(times[..|times| - 1], cutoff) + (if times[|times| - 1] > cutoff then 1 else 0)
  }

  lemma {:induction false} KeptAreLater(times: seq<real>, cutoff: real)
    ensures |Kept(times, cutoff)| == Later(times, cutoff)
  {
    if times != [] {
      KeptAreLater(times[..|times| - 1], cutoff);
    }
  }

  /**
   * In every history a chat is accepted if and only if fewer than fifteen were accepted in the sixty seconds
   * before it, and fewer than three in the ten.
   */
  lemma ChatAcceptedIffThereIsRoom(start: real, attempts: seq<real>, now: real)
    requires Since(start, attempts + [now])
    ensures
      var accepted := ChatHistory(attempts).accepted;
      ChatHistory(attempts + [now]).accepted
      == if Later(accepted, now - 60.0) < 15 && Later(accepted, now - 10.0) < 3 then accepted + [now] else accepted
  {
    assert (attempts + [now])[..|attempts|] == attempts;
    SinceFront(start, attempts + [now]);
    ChatsStayInOrder(attempts, start);
    var h := ChatHistory(attempts);
    assert Kept(h.times, now - 60.0) == Kept(h.accepted, now - 60.0);
    KeptTwice(h.accepted, now - 60.0, now - 10.0);
    KeptAreLater(h.accepted, now - 60.0);
    KeptAreLater(h.accepted, now - 10.0);
  }

  /** A horn sound, if and only if fewer than eight were in the second before it. */
  lemma SoundAcceptedIffThereIsRoom(start: real, attempts: seq<real>, now: real)
    requires Since(start, attempts + [now])
    ensures
      var accepted := SoundHistory(attempts).accepted;
      SoundHistory(attempts + [now]).accepted == if Later(accepted, now - 1.0) < 8 then accepted + [now] else accepted
  {
    assert (attempts + [now])[..|attempts|] == attempts;
    SinceFront(start, attempts + [now]);
    SoundsStayInOrder(attempts, start);
    var h := SoundHistory(attempts);
    assert Kept(h.times, now - 1.0) == Kept(h.accepted, now - 1.0);
    KeptAreLater(h.accepted, now - 1.0);
  }

  lemma AllowedChatHadRoom(h: History, last: real, now: real)
    requires Remembers(h, 60.0, last) && last <= now && AllowChat(h.times, now).allowed
    ensures |Kept(h.accepted, now - 60.0)| < CHATS_PER_MINUTE && |Kept(h.accepted, now - 10.0)| < CHATS_PER_BURST
  {
    assert Kept(h.times, now - 60.0) == Kept(h.accepted, now - 60.0);
    KeptTwice(h.accepted, now - 60.0, now - 10.0);
  }

  lemma ChatKeepsOrder(h: History, last: real, now: real)
    requires ChatsInOrder(h, last) && last <= now
    ensures ChatsInOrder(Note(h, AllowChat(h.times, now), now), now)
  {
    var w := AllowChat(h.times, now);
    RememberingGoesOn(h, 60.0, last, now, w.allowed);
    if w.allowed {
      AllowedChatHadRoom(h, last, now);
      SpacedOneMore(h.accepted, now, CHATS_PER_MINUTE, 60.0);
      SpacedOneMore(h.accepted, now, CHATS_PER_BURST, 10.0);
    }
  }

  lemma {:induction false} ChatsStayInOrder(attempts: seq<real>, start: real)
    requires Since(start, attempts)
    ensures ChatsInOrder(ChatHistory(attempts), Latest(start, attempts))
  {
    if attempts != [] {
      var front := attempts[..|attempts| - 1];
      SinceFront(start, attempts);
      ChatsStayInOrder(front, start);
      ChatKeepsOrder(ChatHistory(front), Latest(start, front), attempts[|attempts| - 1]);
    }
  }

  lemma OrderBoundsChats(h: History, now: real, a: real)
    requires ChatsInOrder(h, now)
    ensures CountIn(h.accepted, a, a + 60.0) <= 15 && CountIn(h.accepted, a, a + 10.0) <= 3
  {
    SpacedCount(h.accepted, CHATS_PER_MINUTE, 60.0, a);
    SpacedCount(h.accepted, CHATS_PER_BURST, 10.0, a);
  }

  /** Over any whole history, at most 15 chats are accepted in 60 seconds, and 3 in 10 seconds. */
  lemma ChatsAreBounded(start: real, attempts: seq<real>, a: real)
    requires Since(start, attempts)
    ensures
      var accepted := ChatHistory(attempts).accepted;
      CountIn(accepted, a, a + 60.0) <= 15 && CountIn(accepted, a, a + 10.0) <= 3
  {
    ChatsStayInOrder(attempts, start);
    OrderBoundsChats(ChatHistory(attempts), Latest(start, attempts), a);
  }

  ghost predicate SoundsInOrder(h: History, now: real) {
    Remembers(h, 1.0, now) && Spaced(h.accepted, SOUNDS_PER_SECOND, 1.0)
  }

  lemma SoundKeepsOrder(h: History, last: real, now: real)
    requires SoundsInOrder(h, last) && last <= now
    ensures SoundsInOrder(Note(h, AllowSound(h.times, now), now), now)
  {
    var w := AllowSound(h.times, now);
    RememberingGoesOn(h, 1.0, last, now, w.allowed);
    if w.allowed {
      SpacedOneMore(h.accepted, now, SOUNDS_PER_SECOND, 1.0);
    }
  }

  lemma {:induction false} SoundsStayInOrder(attempts: seq<real>, start: real)
    requires Since(start, attempts)
    ensures SoundsInOrder(SoundHistory(attempts), Latest(start, attempts))
  {
    if attempts != [] {
      var front := attempts[..|attempts| - 1];
      SinceFront(start, attempts);
      SoundsStayInOrder(front, start);
      SoundKeepsOrder(SoundHistory(front), Latest(start, front), attempts[|attempts| - 1]);
    }
  }

  lemma SoundsAreBounded(start: real, attempts: seq<real>, a: real)
    requires Since(start, attempts)
    ensures CountIn(SoundHistory(attempts).accepted, a, a + 1.0) <= 8
  {
    SoundsStayInOrder(attempts, start);
    SpacedCount(SoundHistory(attempts).accepted, SOUNDS_PER_SECOND, 1.0, a);
  }

  /** The windows are half-open: after three chats at once, the next is allowed after ten seconds, and no sooner. */
  lemma WindowsAreHalfOpen(now: real)
    requires 0.0 <= now < 60.0
    ensures AllowChat([0.0, 0.0, 0.0], now).allowed <==> now >= 10.0
  {
    var burst := [0.0, 0.0, 0.0];
    KeptAll(burst, now - 60.0);
    if now >= 10.0 { KeptNone(burst, now - 10.0); } else { KeptAll(burst, now - 10.0); }
  }

  lemma {:induction false} KeptAll(times: seq<real>, cutoff: real)
    requires forall i :: 0 <= i < |times| ==> times[i] > cutoff
    ensures Kept(times, cutoff) == times
  {
    if times != [] { KeptAll(times[..|times| - 1], cutoff); }
  }

  lemma {:induction false} KeptNone(times: seq<real>, cutoff: real)
    requires forall i :: 0 <= i < |times| ==> times[i] <= cutoff
    ensures Kept(times, cutoff) == []
  {
    if times != [] { KeptNone(times[..|times| - 1], cutoff); }
  }

  // ---------- The limiter of a connection ----------

  class Limiter {
    var presenceTokens: real
    var presenceLast: real
    const chats: array<real>
    var chatCount: nat
    const sounds: array<real>
    var soundCount: nat

    ghost predicate Valid()
      reads this
    {
      && chats.Length == CHATS_PER_MINUTE && chatCount <= chats.Length
      && sounds.Length == SOUNDS_PER_SECOND && soundCount <= sounds.Length
      && chats != sounds
    }

    ghost function Chats(): (times: seq<real>)
      reads this, chats
      requires Valid()
    {
      chats[..chatCount]
    }

    ghost function Sounds(): (times: seq<real>)
      reads this, sounds
      requires Valid()
    {
      sounds[..soundCount]
    }

    constructor (now: real)
      ensures Valid() && fresh(chats) && fresh(sounds) && Chats() == [] && Sounds() == []
      ensures Bucket(presenceTokens, presenceLast) == NewBucket(now)
    {
      presenceTokens, presenceLast := PRESENCE_BURST, now;
      chats, chatCount := new real[CHATS_PER_MINUTE], 0;
      sounds, soundCount := new real[SOUNDS_PER_SECOND], 0;
    }

    method AllowPresence(now: real) returns (allowed: bool)
      modifies this`presenceTokens, this`presenceLast
      ensures allowed == Accepts(old(Bucket(presenceTokens, presenceLast)), now)
      ensures Bucket(presenceTokens, presenceLast) == Attempt(old(Bucket(presenceTokens, presenceLast)), now)
    {
      var elapsed := now - presenceLast;
      presenceLast := now;
      presenceTokens := presenceTokens + elapsed * PRESENCE_RATE;
      if presenceTokens > PRESENCE_BURST {
        presenceTokens := PRESENCE_BURST;
      }
      if presenceTokens < 1.0 { return false; }
      presenceTokens := presenceTokens - 1.0;
      return true;
    }

    /** The in-place filter keeps precisely the entries still in the window, in order. */
    static method FilterInPlace(times: array<real>, count: nat, cutoff: real) returns (kept: nat)
      requires count <= times.Length
      modifies times
      ensures kept <= count && times[..kept] == Kept(old(times[..count]), cutoff)
    {
      kept := 0;
      for n := 0 to count
        invariant kept <= n
        invariant times[..kept] == Kept(old(times[..n]), cutoff)
        invariant forall i :: n <= i < count ==> times[i] == old(times[i])
      {
        ghost var was, front := old(times[..n + 1]), old(times[..n]);
        assert was[..|was| - 1] == front;
        if times[n] > cutoff {
          times[kept] := times[n];
          kept := kept + 1;
        }
      }
    }

    method AllowChatMessage(now: real) returns (allowed: bool)
      requires Valid()
      modifies this`chatCount, chats
      ensures Valid() && Window(Chats(), allowed) == AllowChat(old(Chats()), now)
    {
      chatCount := FilterInPlace(chats, chatCount, now - 60.0);
      ghost var kept := Chats();
      if chatCount >= CHATS_PER_MINUTE { return false; }
      var burst := 0;
      for n := 0 to chatCount
        invariant burst == |Kept(chats[..n], now - 10.0)|
      {
        assert chats[..n + 1][..n] == chats[..n];
        if chats[n] > now - 10.0 { burst := burst + 1; }
      }
      if burst >= CHATS_PER_BURST { return false; }
      chats[chatCount] := now;
      chatCount := chatCount + 1;
      assert Chats() == kept + [now];
      return true;
    }

    method AllowForkliftSound(now: real) returns (allowed: bool)
      requires Valid()
      modifies this`soundCount, sounds
      ensures Valid() && Window(Sounds(), allowed) == AllowSound(old(Sounds()), now)
    {
      soundCount := FilterInPlace(sounds, soundCount, now - 1.0);
      ghost var kept := Sounds();
      if soundCount >= SOUNDS_PER_SECOND { return false; }
      sounds[soundCount] := now;
      soundCount := soundCount + 1;
      assert Sounds() == kept + [now];
      return true;
    }
  }
}

/**
 * The pure rules of the pet engine: the three needs and their clamped updates,
 * the decay step, the face rule, the mess spawn probability, the timed action
 * sequences and the sprite shake. Times are integers in milliseconds.
 */
module Rules {
  import opened Wrappers

  const MaxNeed: int := 100
  const InitialNeed: int := 80
  /** Below this a need shows on the face. */
  const FaceThreshold: int := 35

  const FeedInterval: int := 350
  const PlayInterval: int := 400
  const FeedCooldown: int := 1200
  const DecayPeriod: int := 5000

  /** Number of steps of a feed or play sequence. */
  const SequenceSteps: nat := 3
  /** Vertical shake of the sprite per step. */
  const FeedShake: int := 4
  const PlayShake: int := 6

  const FeedHunger: nat := 25
  const FeedDirt: nat := 3
  const PlayFun: nat := 25
  const PoopBonus: nat := 5
  const ScrubBonus: nat := 20
  const DecayHunger: nat := 2
  const DecayFun: nat := 1
  const DecayClean: nat := 1

  const MaxPoops: nat := 3

  /** The persisted record: three needs, the time of the last decay and the lifetime. */
  datatype Stats = Stats(hunger: int, fun: int, clean: int, lastTick: int, lifetime: int)

  datatype Face = Happy | Hungry | Sleepy

  predicate InRange(s: Stats) {
    0 <= s.hunger <= MaxNeed && 0 <= s.fun <= MaxNeed && 0 <= s.clean <= MaxNeed
  }

  /** The state a fresh pet starts from at time `now`. */
  function Defaults(now: int): (s: Stats)
    ensures InRange(s) && s.lastTick == now && s.lifetime == 0
    ensures s.hunger == InitialNeed && s.fun == InitialNeed && s.clean == InitialNeed
  {
    Stats(InitialNeed, InitialNeed, InitialNeed, now, 0)
  }

  function Min(a: int, b: int): (m: int) { if a <= b then a else b }
  function Max(a: int, b: int): (m: int) { if a >= b then a else b }

  // ----- clamped updates of one need -----

  /** `min(100, v + k)`: a raise that stops at the top of the scale. */
  function AddCapped(v: int, k: nat): (r: int)
    ensures r <= MaxNeed && r <= v + k
    ensures r == v + k || r == MaxNeed
    ensures v <= MaxNeed ==> v <= r
  {
    Min(MaxNeed, v + k)
  }

  /** `max(0, v - k)`: a drop that stops at the bottom of the scale. */
  function SubFloored(v: int, k: nat): (r: int)
    ensures 0 <= r && v - k <= r
    ensures r == v - k || r == 0
    ensures 0 <= v ==> r <= v
  {
    Max(0, v - k)
  }

  // ----- decay -----

  /** `max(0, now - last_tick)`: a clock that went backwards counts as no time. */
  function Elapsed(s: Stats, now: int): (dt: nat) {
    Max(0, now - s.lastTick)
  }

  predicate DecayDue(s: Stats, now: int) {
    Elapsed(s, now) >= DecayPeriod
  }

  /** One decay step taken at `now`, whatever the time since the last one. */
  function Decayed(s: Stats, now: int): (r: Stats)
    ensures InRange(s) ==> InRange(r)
    ensures r.lastTick == now && r.lifetime >= s.lifetime
    ensures now >= s.lastTick ==> r.lifetime == s.lifetime + (now - s.lastTick)
    ensures s.hunger >= DecayHunger ==> r.hunger == s.hunger - DecayHunger
    ensures s.fun >= DecayFun ==> r.fun == s.fun - DecayFun
    ensures s.clean >= DecayClean ==> r.clean == s.clean - DecayClean
    ensures s.hunger < DecayHunger ==> r.hunger == 0
    ensures s.fun < DecayFun ==> r.fun == 0
    ensures s.clean < DecayClean ==> r.clean == 0
  {
    Stats(SubFloored(s.hunger, DecayHunger), SubFloored(s.fun, DecayFun),
          SubFloored(s.clean, DecayClean), now, s.lifetime + Elapsed(s, now))
  }

  /** Decay does not catch up: the needs after one step do not depend on how long the gap was. */
  lemma DecayIgnoresGap(s: Stats, now1: int, now2: int)
    ensures var a, b := Decayed(s, now1), Decayed(s, now2);
            a.hunger == b.hunger && a.fun == b.fun && a.clean == b.clean
  {
  }

  /** A decay step is never due twice at the same instant. */
  lemma DecayNotDueAgain(s: Stats, now: int)
    ensures !DecayDue(Decayed(s, now), now)
  {
  }

  // ----- rewards of the two sequences -----

  /** The end of a feed: hunger up by 25 and clean down by 3, both clamped. */
  function FeedReward(s: Stats): (r: Stats)
    ensures InRange(s) ==> InRange(r)
    ensures r.fun == s.fun && r.lastTick == s.lastTick && r.lifetime == s.lifetime
    ensures s.hunger + FeedHunger <= MaxNeed ==> r.hunger == s.hunger + FeedHunger
    ensures s.hunger + FeedHunger > MaxNeed ==> r.hunger == MaxNeed
    ensures s.clean >= FeedDirt ==> r.clean == s.clean - FeedDirt
    ensures s.clean < FeedDirt ==> r.clean == 0
  {
    s.(hunger := AddCapped(s.hunger, FeedHunger), clean := SubFloored(s.clean, FeedDirt))
  }

  /** The end of a play: fun up by 25, clamped; hunger and clean untouched. */
  function PlayReward(s: Stats): (r: Stats)
    ensures InRange(s) ==> InRange(r)
    ensures r.hunger == s.hunger && r.clean == s.clean
    ensures r.lastTick == s.lastTick && r.lifetime == s.lifetime
    ensures s.fun + PlayFun <= MaxNeed ==> r.fun == s.fun + PlayFun
    ensures s.fun + PlayFun > MaxNeed ==> r.fun == MaxNeed
  {
    s.(fun := AddCapped(s.fun, PlayFun))
  }

  // ----- the face rule -----

  /** The face after a decay step; the first matching rule wins. */
  function FaceFor(hunger: int, fun: int, clean: int, messy: bool): (f: Face)
    ensures f == Hungry <==> hunger < FaceThreshold
    ensures f == Sleepy <==>
              hunger >= FaceThreshold && (fun < FaceThreshold || clean < FaceThreshold || messy)
    ensures f == Happy <==>
              hunger >= FaceThreshold && fun >= FaceThreshold && clean >= FaceThreshold && !messy
  {
    if hunger < FaceThreshold then Hungry
    else if fun < FaceThreshold then Sleepy
    else if clean < FaceThreshold || messy then Sleepy
    else Happy
  }

  // ----- messes -----

  /** `0.02 + (1 - clean/100) * 0.05`: the chance that a decay step makes a mess. */
  function SpawnProbability(clean: int): (p: real)
    ensures 0 <= clean <= MaxNeed ==> 0.02 <= p <= 0.07
    ensures clean == MaxNeed ==> p == 0.02
    ensures clean == 0 ==> p == 0.07
  {
    0.02 + (1.0 - clean as real / 100.0) * 0.05
  }

  /** A dirtier pet is at least as likely to make a mess. */
  lemma SpawnProbabilityAntitone(c1: int, c2: int)
    requires c1 <= c2
    ensures SpawnProbability(c2) <= SpawnProbability(c1)
  {
  }

  predicate Distinct(s: seq<nat>) {
    forall i, j :: 0 <= i < j < |s| ==> s[i] != s[j]
  }

  /** The position of the first occurrence of `x`. */
  function FirstIndex(s: seq<nat>, x: nat): (i: nat)
    requires x in s
    ensures i < |s| && s[i] == x && forall k :: 0 <= k < i ==> s[k] != x
  {
    if s[0] == x then 0 else FirstIndex(s[1..], x) + 1
  }

  lemma MultisetWithout(s: seq<nat>, i: nat)
    requires i < |s|
    ensures multiset(s[..i] + s[i + 1..]) == multiset(s) - multiset{s[i]}
  {
    assert s == s[..i] + [s[i]] + s[i + 1..];
  }

  /** `list.remove(x)`: drop the first occurrence of `x`, if any, keeping the order of the rest. */
  function RemoveFirst(s: seq<nat>, x: nat): (r: seq<nat>)
    ensures x !in s ==> r == s
    ensures x in s ==> |r| == |s| - 1 && multiset(r) == multiset(s) - multiset{x}
    ensures x in s ==> forall k :: 0 <= k < FirstIndex(s, x) ==> r[k] == s[k]
    ensures x in s ==> forall k :: FirstIndex(s, x) <= k < |r| ==> r[k] == s[k + 1]
  {
    if x in s then
      var i := FirstIndex(s, x);
      MultisetWithout(s, i);
      s[..i] + s[i + 1..]
    else s
  }

  /** Removing the head of a list is dropping it; this is what the bulk clean does on each turn. */
  lemma RemoveFirstHead(s: seq<nat>)
    requires s != []
    ensures RemoveFirst(s, s[0]) == s[1..]
  {
    assert FirstIndex(s, s[0]) == 0;
  }

  /** Removing from a list without repeats leaves no copy behind and no repeats. */
  lemma RemoveFirstDistinct(s: seq<nat>, x: nat)
    requires Distinct(s)
    ensures Distinct(RemoveFirst(s, x)) && x !in RemoveFirst(s, x)
  {
    if x in s {
      var i, r := FirstIndex(s, x), RemoveFirst(s, x);
      forall a, b | 0 <= a < b < |r| ensures r[a] != r[b] {
        var a', b' := if a < i then a else a + 1, if b < i then b else b + 1;
        assert r[a] == s[a'] && r[b] == s[b'] && a' < b';
      }
      forall k | 0 <= k < |r| ensures r[k] != x {
        var k' := if k < i then k else k + 1;
        assert r[k] == s[k'] && k' != i;
      }
    }
  }

  /** The clean need after `n` successive single-mess removals, each worth +5 clamped. */
  function CleanedTimes(c: int, n: nat): (r: int) {
    if n == 0 then c else AddCapped(CleanedTimes(c, n - 1), PoopBonus)
  }

  /** Removing `n` messes one at a time is one clamped raise of `5 * n`. */
  lemma {:induction false} CleanedTimesClosedForm(c: int, n: nat)
    ensures CleanedTimes(c, n) == if n == 0 then c else Min(MaxNeed, c + PoopBonus * n)
  {
    if n > 1 {
      CleanedTimesClosedForm(c, n - 1);
    }
  }

  // ----- timed sequences -----

  /** One feed or play slot: whether it runs, how many steps it took, its deadline and its token. */
  datatype Sequence = Sequence(active: bool, step: nat, nextTick: int, token: Option<nat>)

  /** A slot is running exactly while its token exists, and a running slot has fewer than 3 steps. */
  predicate SequenceOk(q: Sequence) {
    q.step <= SequenceSteps && (q.active ==> q.step < SequenceSteps) && (q.active <==> q.token.Some?)
  }

  /** A slot before its first use. */
  function Idle(): (q: Sequence)
    ensures SequenceOk(q) && !q.active
  {
    Sequence(false, 0, 0, None)
  }

  /** A slot just started at `now` with a fresh token. */
  function Begin(now: int, interval: int, token: nat): (q: Sequence)
    ensures SequenceOk(q) && q.active && q.step == 0 && q.nextTick == now + interval
  {
    Sequence(true, 0, now + interval, Some(token))
  }

  /** A step is taken when the slot runs and its deadline has come. */
  predicate Fires(q: Sequence, now: int) {
    q.active && now >= q.nextTick
  }

  /** The step taken at `now` is the last one. */
  predicate Completes(q: Sequence, now: int) {
    Fires(q, now) && q.step + 1 >= SequenceSteps
  }

  /** What one driver cycle at `now` does to a slot. */
  function Advance(q: Sequence, now: int, interval: int): (r: Sequence)
    ensures SequenceOk(q) ==> SequenceOk(r)
    ensures !Fires(q, now) ==> r == q
    ensures Fires(q, now) ==> r.step == q.step + 1 && r.nextTick == now + interval
    ensures r.active ==> q.active
    ensures Fires(q, now) ==> (r.active <==> !Completes(q, now))
    ensures SequenceOk(q) && Fires(q, now) ==> (r.token.None? <==> Completes(q, now))
  {
    if !Fires(q, now) then q
    else
      var stepped := q.(step := q.step + 1, nextTick := now + interval);
      if stepped.step >= SequenceSteps then stepped.(token := None, active := false)
      else stepped
  }

  /** Three cycles, each at least one interval after the last, run a fresh slot to completion. */
  lemma FullSequence(t0: int, t1: int, t2: int, t3: int, interval: int, token: nat)
    requires t1 >= t0 + interval && t2 >= t1 + interval && t3 >= t2 + interval
    ensures var q1 := Advance(Begin(t0, interval, token), t1, interval);
            var q2 := Advance(q1, t2, interval);
            var q3 := Advance(q2, t3, interval);
            q1.active && q2.active && !Completes(q1, t2) && Completes(q2, t3) &&
            !q3.active && q3.step == SequenceSteps && q3.token.None? && q3.nextTick == t3 + interval
  {
  }

  /** The stats after one driver cycle at `now`: the feed's end, the play's end, then decay. */
  function AfterCycle(s: Stats, feed: Sequence, play: Sequence, now: int): (r: Stats)
    ensures InRange(s) ==> InRange(r)
    ensures r.lifetime >= s.lifetime
    ensures DecayDue(s, now) ==> r.lastTick == now && r.lifetime == s.lifetime + (now - s.lastTick)
    ensures !DecayDue(s, now) ==> r.lastTick == s.lastTick && r.lifetime == s.lifetime
    ensures !Completes(feed, now) && !Completes(play, now) && !DecayDue(s, now) ==> r == s
  {
    var fed := if Completes(feed, now) then FeedReward(s) else s;
    var played := if Completes(play, now) then PlayReward(fed) else fed;
    if DecayDue(played, now) then Decayed(played, now) else played
  }

  // ----- sprite shake -----

  /** The move of the sprite on a step: up on odd steps, down on even ones. */
  function StepDelta(step: nat, shake: int): (dy: int) {
    if step % 2 == 1 then -shake else shake
  }

  /** The move of the sprite in one driver cycle at `now`. */
  function ShakeOf(q: Sequence, now: int, shake: int): (dy: int)
    ensures !Fires(q, now) ==> dy == 0
    ensures Fires(q, now) && q.step % 2 == 0 ==> dy == -shake
    ensures Fires(q, now) && q.step % 2 == 1 ==> dy == shake
    ensures Fires(q, now) ==> dy == NetOffset(q.step + 1, shake) - NetOffset(q.step, shake)
  {
    if Fires(q, now) then StepDelta(q.step + 1, shake) else 0
  }

  /** The total move of the sprite after steps 1 to `k`. */
  function NetOffset(k: nat, shake: int): (dy: int) {
    if k == 0 then 0 else NetOffset(k - 1, shake) + StepDelta(k, shake)
  }

  /** The shake alternates, so after an odd number of steps the sprite sits one shake up. */
  lemma {:induction false} NetOffsetAlternates(k: nat, shake: int)
    ensures NetOffset(k, shake) == if k % 2 == 1 then -shake else 0
  {
    if k > 0 {
      NetOffsetAlternates(k - 1, shake);
    }
  }

  /** The shakes of the three cycles that run a fresh slot to completion add up to one shake up. */
  lemma FullSequenceShake(t0: int, t1: int, t2: int, t3: int, interval: int, token: nat, shake: int)
    requires t1 >= t0 + interval && t2 >= t1 + interval && t3 >= t2 + interval
    ensures var q0 := Begin(t0, interval, token);
            var q1 := Advance(q0, t1, interval);
            var q2 := Advance(q1, t2, interval);
            ShakeOf(q0, t1, shake) + ShakeOf(q1, t2, shake) + ShakeOf(q2, t3, shake)
              == NetOffset(SequenceSteps, shake) == -shake
  {
    FullSequence(t0, t1, t2, t3, interval, token);
    NetOffsetAlternates(SequenceSteps, shake);
  }

  /** A full feed leaves the sprite 4 up, a full play 6 up. */
  lemma FullSequenceOffsets()
    ensures NetOffset(SequenceSteps, FeedShake) == -4
    ensures NetOffset(SequenceSteps, PlayShake) == -6
  {
    NetOffsetAlternates(SequenceSteps, FeedShake);
    NetOffsetAlternates(SequenceSteps, PlayShake);
  }
}

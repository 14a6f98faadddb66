/**
 * The pet engine of `TamaApp`: the stats record, the feed and play slots, the
 * feed cooldown, the list of messes, the face and the sprite's vertical offset,
 * with the methods the click handler and the 200 ms driver call. Time comes in
 * as `now` (milliseconds), the random draw as `sample`, and `nextId` stands for
 * the canvas, which hands out a fresh item id for every token and mess it draws.
 */
module App {
  import opened Wrappers
  import opened Rules
  import opened Persistence

  /** The three buttons under the screen: feed, play and clean. */
  datatype ButtonName = Left | Ok | Right

  /** A click, already resolved against the button circles and the mess boxes. */
  datatype Click = Press(button: ButtonName) | MessClick(id: nat) | Elsewhere

  class TamaApp {
    var stats: Stats
    var feeding: Sequence
    var cooldownUntil: int
    var playing: Sequence
    var poops: seq<nat>
    var face: Face
    var offset: int
    var nextId: nat
    /** The save file as the last save left it (or as found at start-up). */
    var disk: StoreContent

    /** At most three messes, each a distinct canvas item already handed out. */
    ghost predicate PoopsOk()
      reads this
    {
      |poops| <= MaxPoops && Distinct(poops) &&
      forall i :: 0 <= i < |poops| ==> poops[i] < nextId
    }

    ghost predicate Valid()
      reads this
    {
      SequenceOk(feeding) && SequenceOk(playing) && PoopsOk()
    }

    /** A sequence is running: the click handler ignores input. */
    predicate Busy()
      reads this
    {
      feeding.active || playing.active
    }

    predicate Exclusive()
      reads this
    {
      !(feeding.active && playing.active)
    }

    constructor (now: int, saved: StoreContent)
      ensures Valid() && !Busy()
      ensures stats == Restored(Defaults(now), saved)
      ensures StoredInRange(saved) ==> InRange(stats)
      ensures feeding == Idle() && playing == Idle() && cooldownUntil == 0
      ensures poops == [] && face == Happy && offset == 0 && disk == saved
    {
      stats := Defaults(now);
      feeding := Idle();
      cooldownUntil := 0;
      playing := Idle();
      poops := [];
      face := Happy;
      offset := 0;
      nextId := 1;
      disk := saved;
      new;
      Load(saved);
    }

    // ----- persistence -----

    method Save()
      modifies this`disk
      ensures disk == Present(Snapshot(stats))
    {
      disk := Present(Snapshot(stats));
    }

    method Load(store: StoreContent)
      modifies this`stats
      ensures stats == Restored(old(stats), store)
      ensures !store.Present? ==> stats == old(stats)
    {
      match store
      case Absent =>
      case Corrupt =>
      case Present(doc) =>
        stats := Overlay(stats, doc);
    }

    // ----- input -----

    /** Both halves of the feed start: a fresh token, the first deadline and a happy face. */
    twostate predicate FeedStarted(now: int)
      reads this
    {
      feeding == Begin(now, FeedInterval, old(nextId)) && nextId == old(nextId) + 1 && face == Happy &&
      unchanged(this`stats, this`cooldownUntil, this`playing, this`poops, this`offset, this`disk)
    }

    twostate predicate PlayStarted(now: int)
      reads this
    {
      playing == Begin(now, PlayInterval, old(nextId)) && nextId == old(nextId) + 1 && face == Happy &&
      unchanged(this`stats, this`cooldownUntil, this`feeding, this`poops, this`offset, this`disk)
    }

    /** A click on mess `id`: gone with +5 clean if it was there, nothing otherwise. */
    twostate predicate PoopCleaned(id: nat)
      reads this
    {
      (if id in old(poops) then
         poops == RemoveFirst(old(poops), id) && id !in poops &&
         stats == old(stats).(clean := AddCapped(old(stats).clean, PoopBonus)) &&
         disk == Present(Snapshot(stats))
       else
         poops == old(poops) && stats == old(stats) && disk == old(disk)) &&
      unchanged(this`feeding, this`cooldownUntil, this`playing, this`face, this`offset, this`nextId)
    }

    /** The clean button: every mess removed (+5 each), then +20, all clamped. */
    twostate predicate Scrubbed()
      reads this
    {
      poops == [] &&
      stats == old(stats).(clean := AddCapped(CleanedTimes(old(stats).clean, |old(poops)|), ScrubBonus)) &&
      face == Happy && disk == Present(Snapshot(stats)) &&
      unchanged(this`feeding, this`cooldownUntil, this`playing, this`offset, this`nextId)
    }

    twostate predicate ButtonHandled(b: ButtonName, now: int)
      reads this
    {
      match b
      case Left => if now < old(cooldownUntil) then unchanged(this) else FeedStarted(now)
      case Ok => if old(playing.active) then unchanged(this) else PlayStarted(now)
      case Right => Scrubbed()
    }

    /** `on_click`: input is dropped while a sequence runs, otherwise dispatched. */
    method OnClick(click: Click, now: int)
      requires Valid()
      modifies this
      ensures Valid()
      ensures old(InRange(stats)) ==> InRange(stats)
      ensures old(Busy()) || click.Elsewhere? ==> unchanged(this)
      ensures !old(Busy()) ==> Exclusive()
      ensures !old(Busy()) && click.Press? ==> ButtonHandled(click.button, now)
      ensures !old(Busy()) && click.MessClick? ==> PoopCleaned(click.id)
    {
      if feeding.active || playing.active {
        return;
      }
      match click
      case Press(b) =>
        HandleButton(b, now);
      case MessClick(id) =>
        CleanPoop(id);
      case Elsewhere =>
    }

    /** `handle_button`: feed unless cooling down, play unless playing, or clean up. */
    method HandleButton(b: ButtonName, now: int)
      requires Valid()
      modifies this
      ensures Valid()
      ensures old(InRange(stats)) ==> InRange(stats)
      ensures ButtonHandled(b, now)
    {
      match b
      case Left =>
        if now < cooldownUntil {
          return;
        }
        StartFeeding(now);
      case Ok =>
        if !playing.active {
          StartPlaying(now);
        }
      case Right =>
        var pending := poops;
        var i := 0;
        while i < |pending|
          invariant 0 <= i <= |pending|
          invariant Valid()
          invariant poops == pending[i..]
          invariant stats == old(stats).(clean := CleanedTimes(old(stats).clean, i))
          invariant old(InRange(stats)) ==> InRange(stats)
          invariant if i == 0 then disk == old(disk) else disk == Present(Snapshot(stats))
          invariant unchanged(this`feeding, this`cooldownUntil, this`playing, this`face, this`offset, this`nextId)
        {
          RemoveFirstHead(poops);
          CleanPoop(pending[i]);
          i := i + 1;
        }
        stats := stats.(clean := AddCapped(stats.clean, ScrubBonus));
        face := Happy;
        Save();
    }

    // ----- feed sequence -----

    method StartFeeding(now: int)
      requires Valid()
      modifies this`feeding, this`nextId, this`face
      ensures Valid()
      ensures feeding == Begin(now, FeedInterval, old(nextId)) && nextId == old(nextId) + 1 && face == Happy
    {
      var food := nextId;
      nextId := nextId + 1;
      feeding := feeding.(active := true, step := 0, token := Some(food), nextTick := now + FeedInterval);
      face := Happy;
    }

    /** One driver cycle of the feed slot: a step once the deadline has come, the end after the third. */
    method TickFeeding(now: int)
      requires Valid()
      modifies this`feeding, this`offset, this`cooldownUntil, this`stats, this`face, this`disk
      ensures Valid()
      ensures feeding == Advance(old(feeding), now, FeedInterval)
      ensures offset == old(offset) + ShakeOf(old(feeding), now, FeedShake)
      ensures if Completes(old(feeding), now) then
                stats == FeedReward(old(stats)) && cooldownUntil == now + FeedCooldown &&
                face == Happy && disk == Present(Snapshot(stats))
              else
                stats == old(stats) && cooldownUntil == old(cooldownUntil) &&
                face == old(face) && disk == old(disk)
    {
      if !feeding.active {
        return;
      }
      if now < feeding.nextTick {
        return;
      }
      feeding := feeding.(step := feeding.step + 1, nextTick := now + FeedInterval);
      offset := offset + StepDelta(feeding.step, FeedShake);
      if feeding.step >= SequenceSteps {
        EndFeeding(now);
      }
    }

    method EndFeeding(now: int)
      requires SequenceOk(playing) && PoopsOk() && feeding.step <= SequenceSteps
      modifies this`feeding, this`cooldownUntil, this`stats, this`face, this`disk
      ensures Valid()
      ensures feeding == old(feeding).(token := None, active := false)
      ensures cooldownUntil == now + FeedCooldown && stats == FeedReward(old(stats))
      ensures face == Happy && disk == Present(Snapshot(stats))
    {
      feeding := feeding.(token := None, active := false);
      cooldownUntil := now + FeedCooldown;
      stats := stats.(hunger := AddCapped(stats.hunger, FeedHunger));
      stats := stats.(clean := SubFloored(stats.clean, FeedDirt));
      face := Happy;
      Save();
    }

    // ----- play sequence -----

    method StartPlaying(now: int)
      requires Valid()
      modifies this`playing, this`nextId, this`face
      ensures Valid()
      ensures playing == Begin(now, PlayInterval, old(nextId)) && nextId == old(nextId) + 1 && face == Happy
    {
      var block := nextId;
      nextId := nextId + 1;
      playing := playing.(active := true, step := 0, token := Some(block), nextTick := now + PlayInterval);
      face := Happy;
    }

    /** One driver cycle of the play slot, as for feeding but every 400 ms and with a 6-unit shake. */
    method TickPlaying(now: int)
      requires Valid()
      modifies this`playing, this`offset, this`stats, this`face, this`disk
      ensures Valid()
      ensures playing == Advance(old(playing), now, PlayInterval)
      ensures offset == old(offset) + ShakeOf(old(playing), now, PlayShake)
      ensures if Completes(old(playing), now) then
                stats == PlayReward(old(stats)) && face == Happy && disk == Present(Snapshot(stats))
              else
                stats == old(stats) && face == old(face) && disk == old(disk)
    {
      if !playing.active {
        return;
      }
      if now < playing.nextTick {
        return;
      }
      playing := playing.(step := playing.step + 1, nextTick := now + PlayInterval);
      offset := offset + StepDelta(playing.step, PlayShake);
      if playing.step >= SequenceSteps {
        EndPlaying();
      }
    }

    method EndPlaying()
      requires SequenceOk(feeding) && PoopsOk() && playing.step <= SequenceSteps
      modifies this`playing, this`stats, this`face, this`disk
      ensures Valid()
      ensures playing == old(playing).(token := None, active := false)
      ensures stats == PlayReward(old(stats)) && face == Happy && disk == Present(Snapshot(stats))
    {
      playing := playing.(token := None, active := false);
      stats := stats.(fun := AddCapped(stats.fun, PlayFun));
      face := Happy;
      Save();
    }

    // ----- messes -----

    /** A mess appears when the draw falls under the spawn probability and there are fewer than three. */
    method MaybeMakePoop(sample: real)
      requires Valid()
      modifies this`poops, this`nextId
      ensures Valid()
      ensures if sample < SpawnProbability(stats.clean) && |old(poops)| < MaxPoops
              then poops == old(poops) + [old(nextId)] && nextId == old(nextId) + 1
              else poops == old(poops) && nextId == old(nextId)
    {
      var p := SpawnProbability(stats.clean);
      if sample < p && |poops| < MaxPoops {
        var po := nextId;
        nextId := nextId + 1;
        poops := poops + [po];
      }
    }

    method CleanPoop(id: nat)
      requires Valid()
      modifies this`poops, this`stats, this`disk
      ensures Valid()
      ensures old(InRange(stats)) ==> InRange(stats)
      ensures PoopCleaned(id)
    {
      if id in poops {
        ghost var before := poops;
        RemoveFirstDistinct(poops, id);
        poops := RemoveFirst(poops, id);
        assert PoopsOk() by {
          forall k | 0 <= k < |poops| ensures poops[k] < nextId {
            var k' := if k < FirstIndex(before, id) then k else k + 1;
            assert poops[k] == before[k'];
          }
        }
        stats := stats.(clean := AddCapped(stats.clean, PoopBonus));
        Save();
      }
    }

    // ----- the driver -----

    /** One 200 ms cycle: both slots step, then at most one decay with its mess roll and face. */
    method Tick(now: int, sample: real)
      requires Valid()
      modifies this
      ensures Valid()
      ensures old(InRange(stats)) ==> InRange(stats)
      ensures old(Exclusive()) ==> Exclusive()
      ensures feeding == Advance(old(feeding), now, FeedInterval)
      ensures playing == Advance(old(playing), now, PlayInterval)
      ensures offset == old(offset) + ShakeOf(old(feeding), now, FeedShake) + ShakeOf(old(playing), now, PlayShake)
      ensures cooldownUntil == if Completes(old(feeding), now) then now + FeedCooldown else old(cooldownUntil)
      ensures stats == AfterCycle(old(stats), old(feeding), old(playing), now)
      ensures DecayDue(old(stats), now) ==> face == FaceFor(stats.hunger, stats.fun, stats.clean, poops != [])
      ensures !DecayDue(old(stats), now) ==>
                face == if Completes(old(feeding), now) || Completes(old(playing), now) then Happy else old(face)
      ensures if DecayDue(old(stats), now) && sample < SpawnProbability(stats.clean) && |old(poops)| < MaxPoops
              then poops == old(poops) + [old(nextId)] && nextId == old(nextId) + 1
              else poops == old(poops) && nextId == old(nextId)
      ensures if DecayDue(old(stats), now) || Completes(old(feeding), now) || Completes(old(playing), now)
              then disk == Present(Snapshot(stats))
              else disk == old(disk)
    {
      ghost var play0 := playing;
      TickFeeding(now);
      ghost var fed := stats;
      TickPlaying(now);
      ghost var played := stats;
      assert played == if Completes(play0, now) then PlayReward(fed) else fed;
      assert played.lastTick == old(stats).lastTick;
      var dt := Elapsed(stats, now);
      assert DecayDue(played, now) <==> DecayDue(old(stats), now);
      assert AfterCycle(old(stats), old(feeding), old(playing), now)
          == if DecayDue(played, now) then Decayed(played, now) else played;
      if dt >= DecayPeriod {
        stats := stats.(lastTick := now, lifetime := stats.lifetime + dt);
        stats := stats.(hunger := SubFloored(stats.hunger, DecayHunger),
                        fun := SubFloored(stats.fun, DecayFun),
                        clean := SubFloored(stats.clean, DecayClean));
        assert stats == Decayed(played, now);
        MaybeMakePoop(sample);
        face := FaceFor(stats.hunger, stats.fun, stats.clean, poops != []);
        Save();
      }
    }
  }
}

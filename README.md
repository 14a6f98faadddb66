# Virtual-pet engine of `TamaApp`, in Dafny

This project models the simulation engine of a small Tk virtual pet ("tamagotchi"). The pet has
three needs: hunger, fun and clean, each on a 0–100 scale. A decay step runs every
5 s and lowers them. Three buttons act on the pet: feed with the left button, play with OK,
and clean with the right button. Feed and play are timed three-step sequences that shake the sprite and then
reward the pet; feeding is followed by a 1.2 s cooldown. A decay step may leave a mess (at most
three at a time), and a mess is removed by clicking it or by the clean button. The stats are written
to a save file after every change and read back at start-up.

Layout:

- `wrappers.dfy` — `Option`.
- `rules.dfy` — module `Rules`. It holds the pure rules: the `Stats` record, the clamped raises and drops, the
  decay step, the rewards of the two sequences, and the face rule. It also holds the spawn probability, `list.remove`,
  the repeated +5 of a bulk clean, the `Sequence` slot with its per-cycle `Advance`, and the sprite
  shake, each with lemmas.
- `persistence.dfy` — module `Persistence`: the save document, the snapshot written by `save`, the
  overlay applied by `load`, and the save/load round trip.
- `app.dfy` — module `App`: class `TamaApp`. Its fields are the stats record, two sequence slots,
  the feed cooldown, the mess list, the face, the sprite offset, the canvas id counter and the save file. Its
  methods mirror the source's methods. Each method's contract ties the new state to the
  functions of `Rules` and `Persistence`, and keeps the invariant `Valid()`. `Valid()` says that a running slot holds a
  token and has fewer than 3 steps, and that there are at most 3 messes, all distinct.
- `scenarios.dfy` — client methods that derive the visible behaviour from the contracts alone. One feeds a
  pet from hunger 30 through 3 steps to 55 and shows the cooldown and the click gate. One runs a full
  play. One piles messes up to 3 over five decay steps and then bulk-cleans them.

Modelling choices:

- Time is an `int` in milliseconds, passed in as `now`. The constants are 350, 400, 1200 and 5000. The random draw
  is a `real` parameter `sample`.
- The canvas is represented only by `nextId`, the source of fresh item ids. These ids are the food and block tokens and the
  mess ids.
- The face is a tag (`Happy`, `Hungry`, `Sleepy`). The sprite position is the sum `offset` of all
  vertical moves.
- The save file is an abstract `StoreContent`: `Absent`, `Corrupt` (unreadable or unparsable) or
  `Present(doc)`. Any field under `"stats"` may be missing.
- The need bounds are kept as "if they were in [0,100] before, they are after". Loading a file whose needs are outside
  [0,100] brings those values in, and the source keeps them (`StoredInRange` says when a load
  cannot do that).

Two points where the source is easy to misread:

- The feed button checks only the cooldown (app.py:204-210), not whether a sequence is running. Play and
  feed exclude each other only because `on_click` drops all input while either one runs
  (app.py:188-189). `OnClick` keeps `Exclusive()` for that reason, and `HandleButton` on its own does not.
- Each update clamps on one side only: it uses `min(100, …)` when raising and `max(0, …)` when lowering. It is
  not a two-sided clamp. The difference shows only for out-of-range values brought in by a load.

## Model

| member | source | states |
|---|---|---|
| `Rules.Defaults` | app.py:92-95 | a new pet starts at 80/80/80 with lifetime 0 and the last decay at `now`, all needs in range |
| `Rules.AddCapped` | app.py:220 | a raise `min(100, v+k)` is `v+k` or 100, never above 100 or `v+k`, and never lowers an in-range need |
| `Rules.SubFloored` | app.py:327-329 | a drop `max(0, v-k)` is `v-k` or 0, never below 0, and never raises a non-negative need |
| `Rules.Decayed` | app.py:324-329 | a decay step keeps needs in range, takes exactly 2/1/1 off needs that can afford it and leaves 0 in a need below its decrement, sets the last decay to `now` and adds the elapsed time to the lifetime, which never decreases |
| `Rules.DecayIgnoresGap` | app.py:324-329 | the needs after a decay step are the same whatever the gap was: there is no catch-up for missed intervals |
| `Rules.DecayNotDueAgain` | app.py:323-325 | right after a decay at `now` no second decay is due at `now` |
| `Rules.FeedReward` | app.py:255-256 | the end of a feed gives exactly +25 hunger and -3 clean below the clamps (100 and 0 past them), keeps fun, and keeps needs in range |
| `Rules.PlayReward` | app.py:291 | the end of a play gives exactly +25 fun below 100 and 100 past it, leaves hunger and clean alone, and keeps needs in range |
| `Rules.FaceFor` | app.py:334-341 | the face is hungry iff hunger < 35; sleepy iff hunger >= 35 and fun < 35 or clean < 35 or a mess exists; happy iff all three are >= 35 and there is no mess |
| `Rules.SpawnProbability` | app.py:296 | the mess probability lies in [0.02, 0.07] for clean in [0,100], is 0.02 at 100 and 0.07 at 0 |
| `Rules.SpawnProbabilityAntitone` | app.py:296 | a lower clean never lowers the mess probability |
| `Rules.FirstIndex` | app.py:306 | the position `list.remove` acts on holds the id and no earlier position does |
| `Rules.RemoveFirst` | app.py:306 | `list.remove` leaves a list without the id unchanged; otherwise it takes out exactly one copy, the first one: the entries before it stay in place, the ones after it move down by one, and the rest of the multiset is kept |
| `Rules.RemoveFirstHead` | app.py:218-219 | removing the head of the list drops it, so the bulk clean's loop over a copy of the list always removes the current head |
| `Rules.RemoveFirstDistinct` | app.py:304-306 | on a list without repeats, removing an id leaves no copy of it and no repeats |
| `Rules.CleanedTimesClosedForm` | app.py:218-219 | removing `n >= 1` messes one by one, each +5 capped at 100, is the same as one raise `min(100, c + 5n)` |
| `Rules.Idle` | app.py:121 | a slot before first use is not running and satisfies the slot invariant |
| `Rules.Begin` | app.py:233 | a started slot runs with step 0, its deadline is one interval ahead, and it satisfies the slot invariant |
| `Rules.Advance` | app.py:236-247 | a cycle changes a slot only when it runs and its deadline has passed; it then adds exactly 1 to the step and re-arms the deadline at `now` + interval, and the slot stops exactly on the third step (and drops its token); it never starts a slot and keeps the slot invariant |
| `Rules.FullSequence` | app.py:271-283 | three cycles, each at least one interval after the previous, run a fresh slot to completion: the first two keep it running, the third completes it at step 3 with no token |
| `Rules.AfterCycle` | app.py:316-329 | the stats after one driver cycle keep needs in range and never lose lifetime; if no sequence ends and no decay is due they are unchanged, and a decay moves the last decay to `now` |
| `Rules.ShakeOf` | app.py:244-245 | when a step is taken the sprite moves one shake up (negative) if the new step is odd and one shake down if it is even, which is the change of `NetOffset` over that step; it does not move otherwise |
| `Rules.NetOffsetAlternates` | app.py:242-245 | after `k` steps the sprite is one shake up when `k` is odd and back in place when `k` is even |
| `Rules.FullSequenceShake` | app.py:242-246 | the three moves of a full sequence, driven one interval apart, add up to one shake up |
| `Rules.FullSequenceOffsets` | app.py:280-282 | a full feed leaves the sprite 4 up and a full play 6 up |
| `Persistence.Overlay` | app.py:360 | a load overwrites exactly the fields present under "stats" and keeps every other field (all of them when "stats" is missing) |
| `Persistence.Restored` | app.py:354-363 | with no file, or an unreadable one, the stats are unchanged; in-range stats and an in-range file give in-range stats |
| `Persistence.Snapshot` | app.py:347-350 | a save writes all five fields, the file is in range iff the stats are, and loading it back over any stats reproduces the saved ones |
| `Persistence.OverlayIdempotent` | app.py:360 | loading the same document twice is the same as loading it once |
| `Persistence.SaveLoadRoundTrip` | app.py:347-363 | save then load reproduces the five saved values exactly |
| `App.TamaApp.constructor` | app.py:92-127 | a new engine holds the defaults overlaid by the save file, idle slots, no cooldown, no messes and a happy face; the stats are in range when the file's needs are |
| `App.TamaApp.Save` | app.py:347-352 | the save file afterwards holds the snapshot of the current stats |
| `App.TamaApp.Load` | app.py:354-363 | the stats become the overlay of the file on the current stats and stay unchanged when the file is missing or corrupt |
| `App.TamaApp.OnClick` | app.py:184-200 | while a sequence runs, or for a click on nothing, nothing changes; otherwise the button or mess click takes effect, at most one sequence then runs, and need bounds are kept |
| `App.TamaApp.HandleButton` | app.py:203-223 | feed is refused with no change before the cooldown ends and otherwise starts; play starts unless already running (otherwise no change); clean removes every mess (+5 each) then adds +20, all capped, and shows a happy face |
| `App.TamaApp.StartFeeding` | app.py:226-234 | the feed slot runs from step 0 with a fresh token and its first step 350 ms ahead; the face is happy |
| `App.TamaApp.TickFeeding` | app.py:236-247 | the feed slot advances as `Advance` with 350 ms; the sprite moves by the step's shake; on the third step hunger/clean get the feed reward, the cooldown ends 1.2 s later and the stats are saved; otherwise stats, cooldown, face and file are untouched |
| `App.TamaApp.EndFeeding` | app.py:249-257 | the feed slot stops and drops its token, the cooldown ends 1.2 s later, the feed reward is applied, the face is happy and the stats are saved |
| `App.TamaApp.StartPlaying` | app.py:260-269 | the play slot runs from step 0 with a fresh token and its first step 400 ms ahead; the face is happy |
| `App.TamaApp.TickPlaying` | app.py:271-283 | the play slot advances as `Advance` with 400 ms; the sprite moves by the step's shake; on the third step fun gets the play reward and the stats are saved; otherwise stats, face and file are untouched |
| `App.TamaApp.EndPlaying` | app.py:285-292 | the play slot stops and drops its token, the play reward is applied, the face is happy and the stats are saved |
| `App.TamaApp.MaybeMakePoop` | app.py:295-301 | a fresh mess id is appended exactly when the draw is below the spawn probability and fewer than 3 messes exist; otherwise nothing changes; never more than 3 |
| `App.TamaApp.CleanPoop` | app.py:303-309 | an id not in the list changes nothing; otherwise that id is gone, clean gets +5 capped at 100 and the stats are saved |
| `App.TamaApp.Tick` | app.py:316-344 | both slots advance, then at most one decay (only when 5 s have passed) with its mess roll on the decayed clean, and then the face rule and a save; stats follow `AfterCycle`, need bounds and sequence exclusion are kept, and the cooldown, offset, messes and file change exactly as described |

## Left out

- Drawing: the Tk window, image loading and scaling, the bars, toasts and the debug overlay are not modelled. The canvas side of `set_face` is also left out; only the face tag is kept.
- Click geometry: hit-testing against the button circles and the mess boxes (app.py:190-200) is not modelled. A `Click` arrives already resolved to a button, a mess id or nothing.
- Scheduling: the `root.after(200, …)` re-arming of the driver, and the first `tick()` that `__init__` itself runs, are not modelled. The model's `Tick` is called by its environment, and the first call stands for the one in `__init__`.
- Clock reads: each source method reads `time.time()` anew, so `handle_button` and `start_feeding` may see slightly different times, and so may `tick_feeding`, `tick_playing` and `tick`. The model uses one `now` per call. Times are exact milliseconds, not floating-point seconds.
- Random positions: the two position draws for a new mess (app.py:298-299) are not modelled. The poop image is assumed present, as its absence would switch messes off entirely.
- Floating point: the spawn probability is computed in exact `real` arithmetic.
- File I/O: `open`, `json.dump`, `json.load` and `os.path.exists` are not modelled. A save always succeeds in the model. A failed write, which the source swallows, leaves in-memory state alone in both.
- Load edge cases: unknown keys that `dict.update` copies into the stats (and later re-saves) are not modelled. The model's stored fields are integers. A float need such as 50.5 would work throughout the source (decay, clamps, the face rule and the mess probability), but it is not modelled. A string or `null` need is also not modelled. `dict.update` copies such a value into the stats (app.py:360), then `update_bars` raises on it (app.py:361). The `except` swallows that error, and the bad value stays in the stats.

/**
 * Clients of `TamaApp` that check, from the method contracts alone, the
 * behaviour a player sees: a feed from hunger 30, the feed cooldown, the click
 * gate during a sequence, a play, and messes piling up to three.
 */
module Scenarios {
  import opened Wrappers
  import opened Rules
  import opened Persistence
  import opened App

  /** A save file holding only a hunger of 30. */
  function HungryFile(): StoreContent {
    Present(SaveDocument(Some(StoredStats(Some(30), None, None, None, None))))
  }

  method FeedFromThirty() {
    var app := new TamaApp(0, HungryFile());
    assert app.stats == Stats(30, 80, 80, 0, 0);

    app.OnClick(Press(Left), 100);
    assert app.feeding.active && app.feeding.nextTick == 450;

    // the play button is ignored while the feed runs
    app.OnClick(Press(Ok), 200);
    assert !app.playing.active;

    app.Tick(300, 1.0);
    assert app.feeding.step == 0;
    app.Tick(450, 1.0);
    app.Tick(800, 1.0);
    app.Tick(1150, 1.0);
    assert !app.feeding.active && app.feeding.step == 3;
    assert app.stats.hunger == 55 && app.stats.clean == 77 && app.stats.fun == 80;
    assert app.cooldownUntil == 2350 && app.offset == -4 && app.face == Happy;
    assert app.disk == Present(Snapshot(app.stats));

    // a second feed inside the cooldown is refused
    app.OnClick(Press(Left), 2000);
    assert !app.feeding.active && app.stats.hunger == 55;
    app.OnClick(Press(Left), 2349);
    assert !app.feeding.active;

    // after it the feed starts again
    app.OnClick(Press(Left), 2350);
    assert app.feeding.active;
  }

  method PlayOnce() {
    var app := new TamaApp(0, Absent);
    app.OnClick(Press(Ok), 0);
    assert app.playing.active && app.playing.nextTick == 400;
    app.Tick(400, 1.0);
    app.Tick(800, 1.0);
    app.Tick(1200, 1.0);
    assert !app.playing.active;
    assert app.stats.fun == 100 && app.stats.hunger == 80 && app.stats.clean == 80;
    assert app.offset == -6;
  }

  method MessesSaturate() {
    var file := Present(SaveDocument(Some(StoredStats(None, None, Some(10), None, None))));
    var app := new TamaApp(0, file);
    var t := 5000;
    var k := 0;
    while k < 5
      invariant 0 <= k <= 5 && t == 5000 * (k + 1)
      invariant app.Valid() && app.stats.lastTick == t - 5000
      invariant app.stats.clean == 10 - k && 0 <= app.stats.hunger && 0 <= app.stats.fun
      invariant |app.poops| == if k < 3 then k else 3
      invariant !app.feeding.active && !app.playing.active
    {
      app.Tick(t, 0.0);
      t := t + 5000;
      k := k + 1;
    }
    assert |app.poops| == 3;

    // the clean button removes them all: 10 - 5 + 3 * 5 + 20 = 40
    app.OnClick(Press(Right), t);
    assert app.poops == [];
    CleanedTimesClosedForm(5, 3);
    assert app.stats.clean == 40;
  }
}

/** The achievement tracker: a map from achievement id to its record, where
    records are unlocked at most once, carry progress counters towards a
    target, and are written through to a persistent store on every change.
    The store is modelled as a second map (keyed by id, as the database is);
    the notifications the tracker dispatches on an unlock are a log.
    `Date.now()` is the parameter `now`. */
module Achievements {
  import opened Wrappers

  datatype Achievement = Achievement(
    id: string,
    name: string,
    description: string,
    icon: string,
    unlocked: bool,
    unlockedAt: Option<int>,
    progress: Option<int>,
    target: Option<int>)

  /** What the tracker holds: the in-memory map, the stored records and the
      unlock notifications sent so far, oldest first. */
  datatype Tracker = Tracker(book: map<string, Achievement>, store: map<string, Achievement>,
                             notified: seq<Achievement>)

  /** The session summary the session check reads. */
  datatype SessionStats = SessionStats(wpm: int, accuracy: int, level: int, combo: int,
                                       totalLetters: int, wordsTyped: Option<int>)

  const DayMs: int := 24 * 60 * 60 * 1000

  function Plain(id: string, name: string, description: string, icon: string): Achievement {
    Achievement(id, name, description, icon, false, None, None, None)
  }

  function Counter(id: string, name: string, description: string, icon: string, target: int): Achievement {
    Achievement(id, name, description, icon, false, None, Some(0), Some(target))
  }

  /** The sixteen achievements a new player starts with, all locked. */
  function Defaults(): seq<Achievement> {
    [ Plain("first-session", "First Steps", "Complete your first typing session", "\U{1F3AF}"),
      Plain("speed-demon-50", "Speed Demon I", "Reach 50 WPM", "\U{26A1}"),
      Plain("speed-demon-75", "Speed Demon II", "Reach 75 WPM", "\U{26A1}\U{26A1}"),
      Plain("speed-demon-100", "Speed Master", "Reach 100 WPM", "\U{1F680}"),
      Plain("perfectionist", "Perfectionist", "Complete a level with 100% accuracy", "\U{1F48E}"),
      Counter("accuracy-master", "Accuracy Master", "Maintain 95%+ accuracy for 5 levels", "\U{1F3AF}", 5),
      Counter("marathon-runner", "Marathon Runner", "Type 1000 letters in total", "\U{1F3C3}", 1000),
      Plain("combo-king-50", "Combo King", "Reach a 50x combo", "\U{1F451}"),
      Plain("combo-master-100", "Combo Master", "Reach a 100x combo", "\U{1F525}"),
      Plain("level-5", "Upper Row Adept", "Complete Level 5", "\U{1F4C8}"),
      Plain("level-10", "Lower Row Master", "Complete Level 10", "\U{1F4CA}"),
      Plain("level-15", "Number Ninja", "Complete Level 15", "\U{1F522}"),
      Plain("level-20", "Ultimate Champion", "Complete Level 20 (Final Boss)", "\U{1F3C6}"),
      Counter("word-wizard", "Word Wizard", "Type 50 words correctly", "\U{1F4DD}", 50),
      Counter("easter-egg-hunter", "Easter Egg Hunter", "Discover 3 easter eggs", "\U{1F95A}", 3),
      Counter("week-warrior", "Week Warrior", "Play for 7 days in a row", "\U{1F4C5}", 7) ]
  }

  /** The ids the session check, the easter-egg check and the streak check
      rely on. */
  predicate HasIds(t: Tracker) {
    forall i :: 0 <= i < |Defaults()| ==> Defaults()[i].id in t.book
  }

  /** Every record in memory is the one in the store. */
  ghost predicate Synced(t: Tracker) {
    forall id :: id in t.book ==> id in t.store && t.store[id] == t.book[id]
  }

  /** `u` only unlocked or advanced what `t` left locked: no id disappears and
      an unlocked record never changes again. */
  ghost predicate Grows(t: Tracker, u: Tracker) {
    forall id :: id in t.book ==>
      id in u.book && (t.book[id].unlocked ==> u.book[id] == t.book[id])
  }

  lemma GrowsTrans(t: Tracker, u: Tracker, v: Tracker)
    requires Grows(t, u) && Grows(u, v)
    ensures Grows(t, v)
  {
  }

  // ------------------------------------------------------------ loading

  /** Load one default: the stored record when there is one, otherwise the
      default, which is also written to the store. */
  function LoadOne(t: Tracker, existing: map<string, Achievement>, d: Achievement): Tracker {
    if d.id in existing then t.(book := t.book[d.id := existing[d.id]])
    else t.(book := t.book[d.id := d], store := t.store[d.id := d])
  }

  /** Load the defaults `ds` in order. */
  function Load(t: Tracker, existing: map<string, Achievement>, ds: seq<Achievement>): (r: Tracker)
    ensures r.notified == t.notified
    decreases |ds|
  {
    if ds == [] then t
    else LoadOne(Load(t, existing, ds[..|ds| - 1]), existing, ds[|ds| - 1])
  }

  /** Loading from a store that holds `existing` puts every default id in
      memory, with the stored record when there is one and the default
      otherwise, keeps the stored records, and leaves memory and store in
      step. */
  lemma {:induction false} LoadContents(t: Tracker, existing: map<string, Achievement>, ds: seq<Achievement>)
    requires t.store == existing && t.book.Keys <= existing.Keys
    requires forall id :: id in t.book ==> t.book[id] == existing[id]
    ensures LoadedBook(Load(t, existing, ds), existing, ds)
    ensures var r := Load(t, existing, ds);
      && Synced(r)
      && existing.Keys <= r.store.Keys && (forall id :: id in existing ==> r.store[id] == existing[id])
    decreases |ds|
  {
    LoadStore(t, existing, ds);
    if ds != [] {
      var front := ds[..|ds| - 1];
      LoadContents(t, existing, front);
      LoadBookStep(Load(t, existing, front), existing, ds);
    }
  }

  /** What loading `ds` puts in memory: every id of `ds`, the stored record
      when there is one, and otherwise a default from `ds`. */
  ghost predicate LoadedBook(r: Tracker, existing: map<string, Achievement>, ds: seq<Achievement>) {
    && (forall i :: 0 <= i < |ds| ==> ds[i].id in r.book)
    && (forall i :: 0 <= i < |ds| && ds[i].id in existing ==> r.book[ds[i].id] == existing[ds[i].id])
    && (forall id :: id in r.book && id !in existing ==>
          exists i :: 0 <= i < |ds| && ds[i].id == id && r.book[id] == ds[i])
  }

  /** Loading the last default keeps `LoadedBook`. */
  lemma LoadBookStep(r0: Tracker, existing: map<string, Achievement>, ds: seq<Achievement>)
    requires ds != [] && LoadedBook(r0, existing, ds[..|ds| - 1])
    ensures LoadedBook(LoadOne(r0, existing, ds[|ds| - 1]), existing, ds)
  {
    var n := |ds| - 1;
    var front := ds[..n];
    var r := LoadOne(r0, existing, ds[n]);
    forall i | 0 <= i < |ds|
      ensures ds[i].id in r.book
      ensures ds[i].id in existing ==> r.book[ds[i].id] == existing[ds[i].id]
    {
      if i < n {
        assert front[i] == ds[i];
      }
    }
    forall id | id in r.book && id !in existing
      ensures exists i :: 0 <= i < |ds| && ds[i].id == id && r.book[id] == ds[i]
    {
      if id != ds[n].id {
        var i :| 0 <= i < |front| && front[i].id == id && r0.book[id] == front[i];
        assert ds[i] == front[i];
      }
    }
  }

  /** Loading never drops a stored record and writes a record to the store
      exactly when it puts it in memory without a stored one, so memory and
      store stay in step. */
  lemma {:induction false} LoadStore(t: Tracker, existing: map<string, Achievement>, ds: seq<Achievement>)
    requires t.store == existing && t.book.Keys <= existing.Keys
    requires forall id :: id in t.book ==> t.book[id] == existing[id]
    ensures var r := Load(t, existing, ds);
      && Synced(r)
      && existing.Keys <= r.store.Keys && (forall id :: id in existing ==> r.store[id] == existing[id])
    decreases |ds|
  {
    if ds != [] {
      LoadStore(t, existing, ds[..|ds| - 1]);
    }
  }

  /** Loading one default more. */
  lemma LoadNext(t: Tracker, existing: map<string, Achievement>, ds: seq<Achievement>, k: nat)
    requires k < |ds|
    ensures Load(t, existing, ds[..k + 1]) == LoadOne(Load(t, existing, ds[..k]), existing, ds[k])
  {
    assert ds[..k + 1][..k] == ds[..k];
  }

  /** Opening the store with `existing` in it and loading the defaults into
      an empty tracker. */
  function Opened(existing: map<string, Achievement>): Tracker {
    Load(Tracker(map[], existing, []), existing, Defaults())
  }

  /** Every default starts locked. */
  lemma DefaultsLocked()
    ensures forall i :: 0 <= i < |Defaults()| ==> !Defaults()[i].unlocked
  {
  }

  /** Loading `ds` into an empty tracker: every id of `ds` is known, memory
      agrees with the store, a stored record wins over the default, and an
      id the store did not hold is locked when the defaults are. */
  lemma LoadFresh(existing: map<string, Achievement>, ds: seq<Achievement>)
    ensures var r := Load(Tracker(map[], existing, []), existing, ds);
      && (forall i :: 0 <= i < |ds| ==> ds[i].id in r.book)
      && Synced(r) && r.notified == []
      && (forall i :: 0 <= i < |ds| && ds[i].id in existing ==> r.book[ds[i].id] == existing[ds[i].id])
      && ((forall i :: 0 <= i < |ds| ==> !ds[i].unlocked) ==>
            forall i :: 0 <= i < |ds| && ds[i].id !in existing ==> !r.book[ds[i].id].unlocked)
  {
    var r := Load(Tracker(map[], existing, []), existing, ds);
    LoadContents(Tracker(map[], existing, []), existing, ds);
    if forall i :: 0 <= i < |ds| ==> !ds[i].unlocked {
      forall i | 0 <= i < |ds| && ds[i].id !in existing
        ensures !r.book[ds[i].id].unlocked
      {
        var j :| 0 <= j < |ds| && ds[j].id == ds[i].id && r.book[ds[i].id] == ds[j];
      }
    }
  }

  /** After opening: every default id is known, memory agrees with the store,
      no notification has gone out, and an id the store did not hold is
      locked. */
  lemma OpenedContents(existing: map<string, Achievement>)
    ensures var r := Opened(existing);
      && HasIds(r) && Synced(r) && r.notified == []
      && (forall i :: 0 <= i < |Defaults()| && Defaults()[i].id in existing ==>
            r.book[Defaults()[i].id] == existing[Defaults()[i].id])
      && (forall i :: 0 <= i < |Defaults()| && Defaults()[i].id !in existing ==>
            !r.book[Defaults()[i].id].unlocked)
  {
    LoadFresh(existing, Defaults());
    DefaultsLocked();
  }

  // ---------------------------------------------------------- unlocking

  predicate Locked(t: Tracker, id: string) {
    id in t.book && !t.book[id].unlocked
  }

  predicate Unlocked(t: Tracker, id: string) {
    id in t.book && t.book[id].unlocked
  }

  /** Unlock `id` at time `now` if it is known and still locked: memory and
      store get the unlocked record, and a notification goes out. */
  function Unlock(t: Tracker, id: string, now: int): (r: Tracker)
    ensures r.book.Keys == t.book.Keys
    ensures id in t.book ==> r.book[id].unlocked
  {
    if !Locked(t, id) then t
    else
      var a := t.book[id].(unlocked := true, unlockedAt := Some(now));
      Tracker(t.book[id := a], t.store[id := a], t.notified + [a])
  }

  /** Unlocking answers true exactly for a known, locked id; it touches that
      record only, keeps the store in step, keeps unlocked records as they
      are, and a second unlock of the same id answers false and changes
      nothing. */
  lemma UnlockEffect(t: Tracker, id: string, now: int)
    ensures var r := Unlock(t, id, now);
      && (forall k :: k in t.book && k != id ==> r.book[k] == t.book[k])
      && (Locked(t, id) ==> r.book[id] == t.book[id].(unlocked := true, unlockedAt := Some(now))
                            && r.notified == t.notified + [r.book[id]])
      && (!Locked(t, id) ==> r == t)
      && (Synced(t) ==> Synced(r))
      && Grows(t, r)
      && !Locked(r, id) && Unlock(r, id, now) == r
  {
  }

  // ----------------------------------------------------------- progress

  /** `target && progress >= target`: a present, non-zero target reached. */
  predicate Reaches(target: Option<int>, progress: int) {
    target.Some? && target.value != 0 && progress >= target.value
  }

  /** `achievement.progress || 0`. */
  function ProgressOf(a: Achievement): int {
    a.progress.GetOr(0)
  }

  /** Store `progress` on a locked record, unlocking it when it reaches the
      target. */
  function SetProgress(t: Tracker, id: string, progress: int, now: int): (r: Tracker)
    ensures r.book.Keys == t.book.Keys
  {
    if !Locked(t, id) then t
    else
      var a := t.book[id].(progress := Some(progress));
      var t1 := t.(book := t.book[id := a]);
      if Reaches(a.target, progress) then Unlock(t1, id, now)
      else t1.(store := t.store[id := a])
  }

  /** The answer of `SetProgress`: whether it unlocked the record. */
  predicate UpdateUnlocks(t: Tracker, id: string, progress: int) {
    Locked(t, id) && Reaches(t.book[id].target, progress)
  }

  /** Add `amount` to the progress of a locked record. */
  function AddProgress(t: Tracker, id: string, amount: int, now: int): (r: Tracker)
    ensures r.book.Keys == t.book.Keys
  {
    if !Locked(t, id) then t
    else SetProgress(t, id, ProgressOf(t.book[id]) + amount, now)
  }

  predicate IncrementUnlocks(t: Tracker, id: string, amount: int) {
    Locked(t, id) && UpdateUnlocks(t, id, ProgressOf(t.book[id]) + amount)
  }

  /** Progress updates store the new value, unlock exactly when a target is
      reached, touch no other record, keep the store in step, and do nothing
      to an unknown or unlocked record. */
  lemma UpdateProgressEffect(t: Tracker, id: string, progress: int, now: int)
    ensures var r := SetProgress(t, id, progress, now);
      && r.book.Keys == t.book.Keys
      && (forall k :: k in t.book && k != id ==> r.book[k] == t.book[k])
      && (Locked(t, id) ==>
            && r.book[id].progress == Some(progress)
            && r.book[id].target == t.book[id].target
            && (r.book[id].unlocked <==> Reaches(t.book[id].target, progress)))
      && (!Locked(t, id) ==> r == t)
      && (Synced(t) ==> Synced(r))
      && Grows(t, r)
  {
  }

  lemma IncrementProgressEffect(t: Tracker, id: string, amount: int, now: int)
    ensures var r := AddProgress(t, id, amount, now);
      && r.book.Keys == t.book.Keys
      && (forall k :: k in t.book && k != id ==> r.book[k] == t.book[k])
      && (Locked(t, id) ==>
            && r.book[id].progress == Some(ProgressOf(t.book[id]) + amount)
            && (r.book[id].unlocked <==> IncrementUnlocks(t, id, amount)))
      && (!Locked(t, id) ==> r == t)
      && (Synced(t) ==> Synced(r))
      && Grows(t, r)
  {
    if Locked(t, id) {
      UpdateProgressEffect(t, id, ProgressOf(t.book[id]) + amount, now);
    }
  }

  // --------------------------------------------------------- the checks

  /** One awaited call of a check: an unlock, or a progress increment. */
  datatype Step = Unlocking(id: string) | Advancing(id: string, amount: int)

  function Apply(t: Tracker, s: Step, now: int): (r: Tracker)
    ensures r.book.Keys == t.book.Keys
  {
    match s
    case Unlocking(id) => Unlock(t, id, now)
    case Advancing(id, amount) => AddProgress(t, id, amount, now)
  }

  /** The calls `steps`, one after the other. */
  function Run(t: Tracker, steps: seq<Step>, now: int): (r: Tracker)
    ensures r.book.Keys == t.book.Keys
    decreases |steps|
  {
    if steps == [] then t else Run(Apply(t, steps[0], now), steps[1..], now)
  }

  /** The ids the calls name. */
  function Names(steps: seq<Step>): set<string>
    decreases |steps|
  {
    if steps == [] then {} else {steps[0].id} + Names(steps[1..])
  }

  /** The speed tier: every tier at or below the session's wpm, highest
      first. */
  function SpeedSteps(wpm: int): seq<Step> {
    if wpm >= 100 then [Unlocking("speed-demon-100"), Unlocking("speed-demon-75"), Unlocking("speed-demon-50")]
    else if wpm >= 75 then [Unlocking("speed-demon-75"), Unlocking("speed-demon-50")]
    else if wpm >= 50 then [Unlocking("speed-demon-50")]
    else []
  }

  function AccuracySteps(accuracy: int): seq<Step> {
    (if accuracy == 100 then [Unlocking("perfectionist")] else [])
    + (if accuracy >= 95 then [Advancing("accuracy-master", 1)] else [])
  }

  function ComboSteps(combo: int): seq<Step> {
    if combo >= 100 then [Unlocking("combo-master-100"), Unlocking("combo-king-50")]
    else if combo >= 50 then [Unlocking("combo-king-50")]
    else []
  }

  function LevelSteps(level: int): seq<Step> {
    if level >= 20 then [Unlocking("level-20"), Unlocking("level-15"), Unlocking("level-10"), Unlocking("level-5")]
    else if level >= 15 then [Unlocking("level-15"), Unlocking("level-10"), Unlocking("level-5")]
    else if level >= 10 then [Unlocking("level-10"), Unlocking("level-5")]
    else if level >= 5 then [Unlocking("level-5")]
    else []
  }

  /** `if (stats.wordsTyped)`: present and non-zero. */
  function ProgressSteps(st: SessionStats): seq<Step> {
    [Advancing("marathon-runner", st.totalLetters)]
    + (if st.wordsTyped.Some? && st.wordsTyped.value != 0 then [Advancing("word-wizard", st.wordsTyped.value)] else [])
  }

  /** The calls of a session check, in order. */
  function SessionSteps(st: SessionStats): seq<Step> {
    [Unlocking("first-session")] + SpeedSteps(st.wpm) + AccuracySteps(st.accuracy)
    + ComboSteps(st.combo) + LevelSteps(st.level) + ProgressSteps(st)
  }

  function SessionChecks(t: Tracker, st: SessionStats, now: int): Tracker {
    Run(t, SessionSteps(st), now)
  }

  /** Whole days between the last play and now, rounded down. */
  function DaysSince(lastPlayed: int, now: int): int {
    (now - lastPlayed) / DayMs
  }

  /** One more day in a row extends the streak, a gap resets it, and a
      second play on the same day leaves it as it is. */
  function DailyStreak(t: Tracker, lastPlayed: int, now: int): (r: Tracker)
    ensures r.book.Keys == t.book.Keys
  {
    var days := DaysSince(lastPlayed, now);
    if days == 1 then AddProgress(t, "week-warrior", 1, now)
    else if days > 1 then SetProgress(t, "week-warrior", 0, now)
    else t
  }

  // ------------------------------------------------- what the checks do

  /** `u` differs from `t` at most in the records named in `ids`. */
  ghost predicate Only(t: Tracker, u: Tracker, ids: set<string>) {
    && u.book.Keys == t.book.Keys
    && forall k :: k in t.book && k !in ids ==> u.book[k] == t.book[k]
  }

  lemma OnlyKeeps(t: Tracker, u: Tracker, ids: set<string>, id: string)
    requires Only(t, u, ids) && id in t.book && id !in ids
    ensures id in u.book && u.book[id] == t.book[id]
  {
  }

  /** One call changes only the record it names, never an unlocked one,
      keeps memory and store in step, and an unlock call leaves its record
      unlocked. */
  lemma ApplyEffect(t: Tracker, s: Step, now: int)
    ensures var r := Apply(t, s, now);
      && Only(t, r, {s.id}) && Grows(t, r) && (Synced(t) ==> Synced(r))
      && (s.Unlocking? && s.id in t.book ==> Unlocked(r, s.id))
  {
    match s
    case Unlocking(id) => UnlockEffect(t, id, now);
    case Advancing(id, amount) => IncrementProgressEffect(t, id, amount, now);
  }

  lemma {:induction false} RunAppend(t: Tracker, a: seq<Step>, b: seq<Step>, now: int)
    ensures Run(t, a + b, now) == Run(Run(t, a, now), b, now)
    decreases |a|
  {
    if a == [] {
      assert a + b == b;
    } else {
      assert (a + b)[1..] == a[1..] + b;
      RunAppend(Apply(t, a[0], now), a[1..], b, now);
    }
  }

  /** A run of calls changes only the records it names, never an unlocked
      one, keeps memory and store in step, and leaves every known record it
      unlocks unlocked. */
  lemma {:induction false} RunEffect(t: Tracker, steps: seq<Step>, now: int)
    ensures var r := Run(t, steps, now);
      && Only(t, r, Names(steps)) && Grows(t, r) && (Synced(t) ==> Synced(r))
      && (forall id :: Unlocking(id) in steps && id in t.book ==> Unlocked(r, id))
    decreases |steps|
  {
    if steps != [] {
      var t1 := Apply(t, steps[0], now);
      ApplyEffect(t, steps[0], now);
      RunEffect(t1, steps[1..], now);
      var r := Run(t, steps, now);
      forall id | Unlocking(id) in steps && id in t.book
        ensures Unlocked(r, id)
      {
        if Unlocking(id) != steps[0] {
          assert Unlocking(id) in steps[1..];
        }
      }
    }
  }

  /** The ids the session check names are all among the defaults. */
  lemma SessionIds(t: Tracker)
    requires HasIds(t)
    ensures "first-session" in t.book
    ensures "speed-demon-50" in t.book && "speed-demon-75" in t.book && "speed-demon-100" in t.book
    ensures "perfectionist" in t.book
    ensures "combo-king-50" in t.book && "combo-master-100" in t.book
    ensures "level-5" in t.book && "level-10" in t.book && "level-15" in t.book && "level-20" in t.book
  {
    var ds := Defaults();
    assert ds[0].id == "first-session" && ds[4].id == "perfectionist";
    assert ds[1].id == "speed-demon-50" && ds[2].id == "speed-demon-75" && ds[3].id == "speed-demon-100";
    assert ds[7].id == "combo-king-50" && ds[8].id == "combo-master-100";
    assert ds[9].id == "level-5" && ds[10].id == "level-10" && ds[11].id == "level-15" && ds[12].id == "level-20";
  }

  /** After a session check: first-session is unlocked, and so is every
      speed, combo and level tier the session reached and perfectionist at
      100% accuracy; no record is locked again or changed once unlocked;
      memory and store stay in step. */
  lemma SessionTiers(t: Tracker, st: SessionStats, now: int)
    requires HasIds(t)
    ensures var r := SessionChecks(t, st, now);
      && Grows(t, r) && (Synced(t) ==> Synced(r))
      && Unlocked(r, "first-session")
      && (st.wpm >= 50 ==> Unlocked(r, "speed-demon-50"))
      && (st.wpm >= 75 ==> Unlocked(r, "speed-demon-75"))
      && (st.wpm >= 100 ==> Unlocked(r, "speed-demon-100"))
      && (st.accuracy == 100 ==> Unlocked(r, "perfectionist"))
      && (st.combo >= 50 ==> Unlocked(r, "combo-king-50"))
      && (st.combo >= 100 ==> Unlocked(r, "combo-master-100"))
      && (st.level >= 5 ==> Unlocked(r, "level-5"))
      && (st.level >= 10 ==> Unlocked(r, "level-10"))
      && (st.level >= 15 ==> Unlocked(r, "level-15"))
      && (st.level >= 20 ==> Unlocked(r, "level-20"))
  {
    SessionIds(t);
    RunEffect(t, SessionSteps(st), now);
    TiersScheduled(st);
  }

  /** Where each part of the session check sits in the whole. */
  lemma PhasesScheduled(st: SessionStats)
    ensures Unlocking("first-session") in SessionSteps(st)
    ensures forall s :: s in SpeedSteps(st.wpm) ==> s in SessionSteps(st)
    ensures forall s :: s in AccuracySteps(st.accuracy) ==> s in SessionSteps(st)
    ensures forall s :: s in ComboSteps(st.combo) ==> s in SessionSteps(st)
    ensures forall s :: s in LevelSteps(st.level) ==> s in SessionSteps(st)
  {
  }

  /** Every tier the session reached is among the unlock calls. */
  lemma TiersScheduled(st: SessionStats)
    ensures Unlocking("first-session") in SessionSteps(st)
    ensures st.wpm >= 50 ==> Unlocking("speed-demon-50") in SessionSteps(st)
    ensures st.wpm >= 75 ==> Unlocking("speed-demon-75") in SessionSteps(st)
    ensures st.wpm >= 100 ==> Unlocking("speed-demon-100") in SessionSteps(st)
    ensures st.accuracy == 100 ==> Unlocking("perfectionist") in SessionSteps(st)
    ensures st.combo >= 50 ==> Unlocking("combo-king-50") in SessionSteps(st)
    ensures st.combo >= 100 ==> Unlocking("combo-master-100") in SessionSteps(st)
    ensures st.level >= 5 ==> Unlocking("level-5") in SessionSteps(st)
    ensures st.level >= 10 ==> Unlocking("level-10") in SessionSteps(st)
    ensures st.level >= 15 ==> Unlocking("level-15") in SessionSteps(st)
    ensures st.level >= 20 ==> Unlocking("level-20") in SessionSteps(st)
  {
    PhasesScheduled(st);
    if st.wpm >= 50 { assert Unlocking("speed-demon-50") in SpeedSteps(st.wpm); }
    if st.wpm >= 75 { assert Unlocking("speed-demon-75") in SpeedSteps(st.wpm); }
    if st.wpm >= 100 { assert Unlocking("speed-demon-100") in SpeedSteps(st.wpm); }
    if st.accuracy == 100 { assert Unlocking("perfectionist") in AccuracySteps(st.accuracy); }
    if st.combo >= 50 { assert Unlocking("combo-king-50") in ComboSteps(st.combo); }
    if st.combo >= 100 { assert Unlocking("combo-master-100") in ComboSteps(st.combo); }
    if st.level >= 5 { assert Unlocking("level-5") in LevelSteps(st.level); }
    if st.level >= 10 { assert Unlocking("level-10") in LevelSteps(st.level); }
    if st.level >= 15 { assert Unlocking("level-15") in LevelSteps(st.level); }
    if st.level >= 20 { assert Unlocking("level-20") in LevelSteps(st.level); }
  }

  lemma {:induction false} NamesAppend(a: seq<Step>, b: seq<Step>)
    ensures Names(a + b) == Names(a) + Names(b)
    decreases |a|
  {
    if a == [] {
      assert a + b == b;
    } else {
      assert (a + b)[1..] == a[1..] + b;
      NamesAppend(a[1..], b);
    }
  }

  /** The records each part of a session check may change. */
  function SpeedIds(wpm: int): set<string> {
    (if wpm >= 100 then {"speed-demon-100"} else {})
    + (if wpm >= 75 then {"speed-demon-75"} else {})
    + (if wpm >= 50 then {"speed-demon-50"} else {})
  }

  function AccuracyIds(accuracy: int): set<string> {
    (if accuracy == 100 then {"perfectionist"} else {})
    + (if accuracy >= 95 then {"accuracy-master"} else {})
  }

  function ComboIds(combo: int): set<string> {
    (if combo >= 100 then {"combo-master-100"} else {})
    + (if combo >= 50 then {"combo-king-50"} else {})
  }

  function LevelIds(level: int): set<string> {
    (if level >= 20 then {"level-20"} else {})
    + (if level >= 15 then {"level-15"} else {})
    + (if level >= 10 then {"level-10"} else {})
    + (if level >= 5 then {"level-5"} else {})
  }

  function ProgressIds(st: SessionStats): set<string> {
    {"marathon-runner"}
    + (if st.wordsTyped.Some? && st.wordsTyped.value != 0 then {"word-wizard"} else {})
  }

  /** The records a session check may change: first-session, every speed,
      combo and level tier reached, perfectionist at exactly 100% accuracy,
      accuracy-master from 95%, marathon-runner always, and word-wizard when
      words were typed. */
  function Touched(st: SessionStats): set<string> {
    {"first-session"} + SpeedIds(st.wpm) + AccuracyIds(st.accuracy)
    + ComboIds(st.combo) + LevelIds(st.level) + ProgressIds(st)
  }

  lemma NamesCons(x: Step, rest: seq<Step>)
    ensures Names([x] + rest) == {x.id} + Names(rest)
  {
    assert ([x] + rest)[1..] == rest;
  }

  lemma SpeedNames(wpm: int)
    ensures Names(SpeedSteps(wpm)) == SpeedIds(wpm)
  {
    var u50, u75, u100 := Unlocking("speed-demon-50"), Unlocking("speed-demon-75"), Unlocking("speed-demon-100");
    NamesCons(u50, []);
    NamesCons(u75, [u50]);
    NamesCons(u100, [u75, u50]);
    assert [u50] == [u50] + [];
    assert [u75, u50] == [u75] + [u50];
    assert [u100, u75, u50] == [u100] + [u75, u50];
  }

  lemma AccuracyNames(accuracy: int)
    ensures Names(AccuracySteps(accuracy)) == AccuracyIds(accuracy)
  {
    NamesAppend(if accuracy == 100 then [Unlocking("perfectionist")] else [],
                if accuracy >= 95 then [Advancing("accuracy-master", 1)] else []);
  }

  lemma ComboNames(combo: int)
    ensures Names(ComboSteps(combo)) == ComboIds(combo)
  {
    var u50, u100 := Unlocking("combo-king-50"), Unlocking("combo-master-100");
    NamesCons(u50, []);
    NamesCons(u100, [u50]);
    assert [u50] == [u50] + [];
    assert [u100, u50] == [u100] + [u50];
  }

  lemma LevelNames(level: int)
    ensures Names(LevelSteps(level)) == LevelIds(level)
  {
    var u5, u10, u15, u20 := Unlocking("level-5"), Unlocking("level-10"), Unlocking("level-15"), Unlocking("level-20");
    NamesCons(u5, []);
    NamesCons(u10, [u5]);
    NamesCons(u15, [u10, u5]);
    NamesCons(u20, [u15, u10, u5]);
    assert [u5] == [u5] + [];
    assert [u10, u5] == [u10] + [u5];
    assert [u15, u10, u5] == [u15] + [u10, u5];
    assert [u20, u15, u10, u5] == [u20] + [u15, u10, u5];
  }

  lemma ProgressNames(st: SessionStats)
    ensures Names(ProgressSteps(st)) == ProgressIds(st)
  {
    var words: seq<Step> := if st.wordsTyped.Some? && st.wordsTyped.value != 0 then [Advancing("word-wizard", st.wordsTyped.value)] else [];
    NamesAppend([Advancing("marathon-runner", st.totalLetters)], words);
  }

  /** The calls of a session check name exactly the records of `Touched`. */
  lemma SessionNames(st: SessionStats)
    ensures Names(SessionSteps(st)) == Touched(st)
  {
    var s4 := [Unlocking("first-session")] + SpeedSteps(st.wpm) + AccuracySteps(st.accuracy)
              + ComboSteps(st.combo) + LevelSteps(st.level);
    PrefixNames(st);
    NamesAppend(s4, ProgressSteps(st));
    ProgressNames(st);
  }

  /** The records named by the calls before the progress counters. */
  lemma PrefixNames(st: SessionStats)
    ensures Names([Unlocking("first-session")] + SpeedSteps(st.wpm) + AccuracySteps(st.accuracy)
                  + ComboSteps(st.combo) + LevelSteps(st.level))
         == {"first-session"} + SpeedIds(st.wpm) + AccuracyIds(st.accuracy)
            + ComboIds(st.combo) + LevelIds(st.level)
  {
    var first: seq<Step> := [Unlocking("first-session")];
    var s1 := first + SpeedSteps(st.wpm);
    var s2 := s1 + AccuracySteps(st.accuracy);
    var s3 := s2 + ComboSteps(st.combo);
    NamesAppend(first, SpeedSteps(st.wpm));
    NamesAppend(s1, AccuracySteps(st.accuracy));
    NamesAppend(s2, ComboSteps(st.combo));
    NamesAppend(s3, LevelSteps(st.level));
    SpeedNames(st.wpm);
    AccuracyNames(st.accuracy);
    ComboNames(st.combo);
    LevelNames(st.level);
  }

  /** A session check changes no record outside `Touched`: a tier the
      session did not reach, perfectionist below 100% accuracy,
      accuracy-master below 95% and word-wizard without words stay as they
      were. */
  lemma SessionTouches(t: Tracker, st: SessionStats, now: int)
    ensures Only(t, SessionChecks(t, st, now), Touched(st))
  {
    RunEffect(t, SessionSteps(st), now);
    SessionNames(st);
  }

  lemma RunAppend3(t: Tracker, a: seq<Step>, b: seq<Step>, c: seq<Step>, now: int)
    ensures Run(t, a + b + c, now) == Run(Run(Run(t, a, now), b, now), c, now)
  {
    RunAppend(t, a + b, c, now);
    RunAppend(t, a, b, now);
  }

  /** A run leaves alone a record none of its calls names. */
  lemma RunKeeps(t: Tracker, steps: seq<Step>, id: string, now: int)
    requires id in t.book && id !in Names(steps)
    ensures id in Run(t, steps, now).book && Run(t, steps, now).book[id] == t.book[id]
  {
    RunEffect(t, steps, now);
  }

  /** The one increment a run makes to a record no other call names. */
  lemma AdvancedOnce(t: Tracker, pre: seq<Step>, id: string, amount: int, post: seq<Step>, now: int)
    requires Locked(t, id) && id !in Names(pre) && id !in Names(post)
    ensures Run(t, pre + [Advancing(id, amount)] + post, now).book[id].progress
         == Some(ProgressOf(t.book[id]) + amount)
  {
    var adv := [Advancing(id, amount)];
    RunAppend3(t, pre, adv, post, now);
    var t1 := Run(t, pre, now);
    RunKeeps(t, pre, id, now);
    var t2 := Run(t1, adv, now);
    AdvanceOne(t1, id, amount, now);
    RunKeeps(t2, post, id, now);
  }

  /** A run of the one increment call, on a locked record. */
  lemma AdvanceOne(t: Tracker, id: string, amount: int, now: int)
    requires Locked(t, id)
    ensures id in Run(t, [Advancing(id, amount)], now).book
    ensures Run(t, [Advancing(id, amount)], now).book[id].progress == Some(ProgressOf(t.book[id]) + amount)
  {
    assert Run(t, [Advancing(id, amount)], now) == AddProgress(t, id, amount, now);
    IncrementProgressEffect(t, id, amount, now);
  }

  /** The calls before and after accuracy-master's increment. */
  function AccuracyPre(st: SessionStats): seq<Step> {
    [Unlocking("first-session")] + SpeedSteps(st.wpm)
    + (if st.accuracy == 100 then [Unlocking("perfectionist")] else [])
  }

  function AccuracyPost(st: SessionStats): seq<Step> {
    ComboSteps(st.combo) + LevelSteps(st.level) + ProgressSteps(st)
  }

  lemma AccuracySplit(st: SessionStats)
    requires st.accuracy >= 95
    ensures SessionSteps(st) == AccuracyPre(st) + [Advancing("accuracy-master", 1)] + AccuracyPost(st)
  {
    var perfect: seq<Step> := if st.accuracy == 100 then [Unlocking("perfectionist")] else [];
    var a := [Unlocking("first-session")] + SpeedSteps(st.wpm);
    var adv := [Advancing("accuracy-master", 1)];
    var c, l, p := ComboSteps(st.combo), LevelSteps(st.level), ProgressSteps(st);
    assert AccuracySteps(st.accuracy) == perfect + adv;
    calc {
      SessionSteps(st);
      a + (perfect + adv) + c + l + p;
      (a + perfect) + adv + (c + l + p);
    }
  }

  lemma AccuracyPreApart(st: SessionStats)
    ensures "accuracy-master" !in Names(AccuracyPre(st))
  {
    var id := "accuracy-master";
    var perfect: seq<Step> := if st.accuracy == 100 then [Unlocking("perfectionist")] else [];
    NamesAppend([Unlocking("first-session")], SpeedSteps(st.wpm));
    NamesAppend([Unlocking("first-session")] + SpeedSteps(st.wpm), perfect);
    SpeedNames(st.wpm);
    assert id !in SpeedIds(st.wpm);
    assert id !in Names(perfect);
  }

  lemma AccuracyPostApart(st: SessionStats)
    ensures "accuracy-master" !in Names(AccuracyPost(st))
  {
    var id := "accuracy-master";
    NamesAppend(ComboSteps(st.combo), LevelSteps(st.level));
    NamesAppend(ComboSteps(st.combo) + LevelSteps(st.level), ProgressSteps(st));
    ComboNames(st.combo);
    LevelNames(st.level);
    ProgressNames(st);
    assert id !in ComboIds(st.combo);
    assert id !in LevelIds(st.level);
    assert id !in ProgressIds(st);
  }

  /** A session advances accuracy-master by one from 95% accuracy, when it
      is still locked. */
  lemma SessionAccuracyProgress(t: Tracker, st: SessionStats, now: int)
    requires Locked(t, "accuracy-master") && st.accuracy >= 95
    ensures SessionChecks(t, st, now).book["accuracy-master"].progress
         == Some(ProgressOf(t.book["accuracy-master"]) + 1)
  {
    AccuracySplit(st);
    AccuracyPreApart(st);
    AccuracyPostApart(st);
    AdvancedOnce(t, AccuracyPre(st), "accuracy-master", 1, AccuracyPost(st), now);
  }

  /** The calls before and after marathon-runner's increment. */
  function MarathonPre(st: SessionStats): seq<Step> {
    [Unlocking("first-session")] + SpeedSteps(st.wpm) + AccuracySteps(st.accuracy)
    + ComboSteps(st.combo) + LevelSteps(st.level)
  }

  function MarathonPost(st: SessionStats): seq<Step> {
    if st.wordsTyped.Some? && st.wordsTyped.value != 0 then [Advancing("word-wizard", st.wordsTyped.value)] else []
  }

  lemma MarathonSplit(st: SessionStats)
    ensures SessionSteps(st) == MarathonPre(st) + [Advancing("marathon-runner", st.totalLetters)] + MarathonPost(st)
  {
  }

  lemma MarathonApart(st: SessionStats)
    ensures "marathon-runner" !in Names(MarathonPre(st)) && "marathon-runner" !in Names(MarathonPost(st))
  {
    PrefixNames(st);
    SpeedNotMarathon(st.wpm);
    AccuracyNotMarathon(st.accuracy);
    ComboNotMarathon(st.combo);
    LevelNotMarathon(st.level);
  }

  lemma SpeedNotMarathon(wpm: int)
    ensures "marathon-runner" !in SpeedIds(wpm)
  {
  }

  lemma AccuracyNotMarathon(accuracy: int)
    ensures "marathon-runner" !in AccuracyIds(accuracy)
  {
  }

  lemma ComboNotMarathon(combo: int)
    ensures "marathon-runner" !in ComboIds(combo)
  {
  }

  lemma LevelNotMarathon(level: int)
    ensures "marathon-runner" !in LevelIds(level)
  {
  }

  /** A session adds the letters typed to marathon-runner, when it is still
      locked. */
  lemma SessionMarathonProgress(t: Tracker, st: SessionStats, now: int)
    requires Locked(t, "marathon-runner")
    ensures SessionChecks(t, st, now).book["marathon-runner"].progress
         == Some(ProgressOf(t.book["marathon-runner"]) + st.totalLetters)
  {
    MarathonSplit(st);
    MarathonApart(st);
    AdvancedOnce(t, MarathonPre(st), "marathon-runner", st.totalLetters, MarathonPost(st), now);
  }

  /** The easter-egg check advances easter-egg-hunter by one and nothing
      else. */
  lemma EasterEggEffect(t: Tracker, now: int)
    ensures var r := AddProgress(t, "easter-egg-hunter", 1, now);
      && Only(t, r, {"easter-egg-hunter"}) && Grows(t, r)
      && (Locked(t, "easter-egg-hunter") ==>
            r.book["easter-egg-hunter"].progress == Some(ProgressOf(t.book["easter-egg-hunter"]) + 1))
  {
    IncrementProgressEffect(t, "easter-egg-hunter", 1, now);
  }

  /** The streak rule. `days` is the number of whole days since the last
      play, rounded down; one day extends the streak by one, more than one
      resets it to zero, and less than one changes nothing. Only
      week-warrior is ever touched. */
  lemma DailyStreakEffect(t: Tracker, lastPlayed: int, now: int)
    ensures var days := DaysSince(lastPlayed, now);
      && days * DayMs <= now - lastPlayed < (days + 1) * DayMs
    ensures var r := DailyStreak(t, lastPlayed, now);
      var days := DaysSince(lastPlayed, now);
      && Only(t, r, {"week-warrior"}) && Grows(t, r)
      && (days < 1 ==> r == t)
      && (Locked(t, "week-warrior") && days == 1 ==>
            r.book["week-warrior"].progress == Some(ProgressOf(t.book["week-warrior"]) + 1))
      && (Locked(t, "week-warrior") && days > 1 ==>
            r.book["week-warrior"].progress == Some(0)
            && (r.book["week-warrior"].unlocked <==> Reaches(t.book["week-warrior"].target, 0)))
  {
    IncrementProgressEffect(t, "week-warrior", 1, now);
    UpdateProgressEffect(t, "week-warrior", 0, now);
  }

  /** The session check as its six parts, one after the other. */
  lemma SessionRun(t: Tracker, st: SessionStats, now: int)
    ensures SessionChecks(t, st, now)
         == Run(Run(Run(Run(Run(Run(t, [Unlocking("first-session")], now), SpeedSteps(st.wpm), now),
                                AccuracySteps(st.accuracy), now),
                            ComboSteps(st.combo), now),
                        LevelSteps(st.level), now),
                ProgressSteps(st), now)
  {
    var s1 := [Unlocking("first-session")] + SpeedSteps(st.wpm);
    var s2 := s1 + AccuracySteps(st.accuracy);
    var s3 := s2 + ComboSteps(st.combo);
    var s4 := s3 + LevelSteps(st.level);
    RunAppend(t, s4, ProgressSteps(st), now);
    RunAppend(t, s3, LevelSteps(st.level), now);
    RunAppend(t, s2, ComboSteps(st.combo), now);
    RunAppend(t, s1, AccuracySteps(st.accuracy), now);
    RunAppend(t, [Unlocking("first-session")], SpeedSteps(st.wpm), now);
  }

  lemma RunOne(t: Tracker, s: Step, now: int)
    ensures Run(t, [s], now) == Apply(t, s, now)
  {
    assert [s][1..] == [];
  }

  lemma RunCons(t: Tracker, s: Step, rest: seq<Step>, now: int)
    ensures Run(t, [s] + rest, now) == Run(Apply(t, s, now), rest, now)
  {
    assert ([s] + rest)[1..] == rest;
  }

  // ---------------------------------------------------------- the manager

  /** The tracker object: the in-memory map, the store it writes through to,
      and the notifications it has dispatched. */
  class AchievementManager {
    var achievements: map<string, Achievement>
    var db: map<string, Achievement>
    var notified: seq<Achievement>

    function Snapshot(): Tracker
      reads this
    {
      Tracker(achievements, db, notified)
    }

    constructor ()
      ensures Snapshot() == Tracker(map[], map[], [])
    {
      achievements := map[];
      db := map[];
      notified := [];
    }

    /** Open the store, which holds `existing`, and load every default: the
        stored record when there is one, otherwise the default, which is
        then stored. */
    method Init(existing: map<string, Achievement>)
      modifies this
      ensures Snapshot() == Load(old(Snapshot()).(store := existing), existing, Defaults())
      ensures old(achievements) == map[] && old(notified) == [] ==> Snapshot() == Opened(existing)
    {
      db := existing;
      ghost var t0 := Snapshot();
      var ds := Defaults();
      var book, store := achievements, db;
      var k := 0;
      while k < |ds|
        invariant 0 <= k <= |ds|
        invariant Tracker(book, store, notified) == Load(t0, existing, ds[..k])
        modifies {}
      {
        var d := ds[k];
        LoadNext(t0, existing, ds, k);
        if d.id in existing {
          book := book[d.id := existing[d.id]];
        } else {
          store := store[d.id := d];
          book := book[d.id := d];
        }
        k := k + 1;
      }
      assert ds[..|ds|] == ds;
      achievements, db := book, store;
    }

    /** Unlock `id` if it is known and still locked; the answer says whether
        it was. */
    method CheckAndUnlock(id: string, now: int) returns (ok: bool)
      modifies this
      ensures ok == Locked(old(Snapshot()), id)
      ensures Snapshot() == Unlock(old(Snapshot()), id, now)
    {
      if id !in achievements || achievements[id].unlocked {
        return false;
      }
      var a := achievements[id].(unlocked := true, unlockedAt := Some(now));
      db := db[id := a];
      achievements := achievements[id := a];
      notified := notified + [a];
      return true;
    }

    /** Store new progress on a locked record, unlocking it when the target
        is reached; the answer says whether it was unlocked. */
    method UpdateProgress(id: string, progress: int, now: int) returns (ok: bool)
      modifies this
      ensures ok == UpdateUnlocks(old(Snapshot()), id, progress)
      ensures Snapshot() == SetProgress(old(Snapshot()), id, progress, now)
    {
      if id !in achievements || achievements[id].unlocked {
        return false;
      }
      var a := achievements[id].(progress := Some(progress));
      achievements := achievements[id := a];
      if a.target.Some? && a.target.value != 0 && progress >= a.target.value {
        ok := CheckAndUnlock(id, now);
        return;
      }
      db := db[id := a];
      return false;
    }

    /** Add `amount` to the progress of a locked record. */
    method IncrementProgress(id: string, amount: int, now: int) returns (ok: bool)
      modifies this
      ensures ok == IncrementUnlocks(old(Snapshot()), id, amount)
      ensures Snapshot() == AddProgress(old(Snapshot()), id, amount, now)
    {
      if id !in achievements || achievements[id].unlocked {
        return false;
      }
      var next := ProgressOf(achievements[id]) + amount;
      ok := UpdateProgress(id, next, now);
    }

    /** Every record in memory. */
    method GetAll() returns (r: set<Achievement>)
      ensures forall a :: a in r <==> exists id :: id in achievements && achievements[id] == a
    {
      r := achievements.Values;
    }

    /** The unlocked records in memory. */
    method GetUnlocked() returns (r: set<Achievement>)
      ensures forall a :: a in r <==> a.unlocked && exists id :: id in achievements && achievements[id] == a
    {
      r := set a | a in achievements.Values && a.unlocked;
    }

    /** The progress of a record, 0 when it has none or the id is unknown. */
    method GetProgress(id: string) returns (p: int)
      ensures id in achievements && achievements[id].progress.Some? ==> p == achievements[id].progress.value
      ensures id !in achievements || achievements[id].progress.None? ==> p == 0
    {
      p := if id in achievements then ProgressOf(achievements[id]) else 0;
    }

    method CheckSpeed(wpm: int, now: int)
      modifies this
      ensures Snapshot() == Run(old(Snapshot()), SpeedSteps(wpm), now)
    {
      var u50, u75, u100 := Unlocking("speed-demon-50"), Unlocking("speed-demon-75"), Unlocking("speed-demon-100");
      ghost var t0 := Snapshot();
      if wpm >= 100 {
        var _ := CheckAndUnlock("speed-demon-100", now);
        var _ := CheckAndUnlock("speed-demon-75", now);
        var _ := CheckAndUnlock("speed-demon-50", now);
        RunCons(t0, u100, [u75, u50], now);
        RunCons(Apply(t0, u100, now), u75, [u50], now);
        RunOne(Apply(Apply(t0, u100, now), u75, now), u50, now);
        assert [u100, u75, u50] == [u100] + [u75, u50];
        assert [u75, u50] == [u75] + [u50];
      } else if wpm >= 75 {
        var _ := CheckAndUnlock("speed-demon-75", now);
        var _ := CheckAndUnlock("speed-demon-50", now);
        RunCons(t0, u75, [u50], now);
        RunOne(Apply(t0, u75, now), u50, now);
        assert [u75, u50] == [u75] + [u50];
      } else if wpm >= 50 {
        var _ := CheckAndUnlock("speed-demon-50", now);
        RunOne(t0, u50, now);
      }
    }

    method CheckAccuracy(accuracy: int, now: int)
      modifies this
      ensures Snapshot() == Run(old(Snapshot()), AccuracySteps(accuracy), now)
    {
      var perfect: seq<Step> := if accuracy == 100 then [Unlocking("perfectionist")] else [];
      var master: seq<Step> := if accuracy >= 95 then [Advancing("accuracy-master", 1)] else [];
      ghost var t0 := Snapshot();
      if accuracy == 100 {
        var _ := CheckAndUnlock("perfectionist", now);
        RunOne(t0, Unlocking("perfectionist"), now);
      }
      ghost var t1 := Snapshot();
      assert t1 == Run(t0, perfect, now);
      if accuracy >= 95 {
        var _ := IncrementProgress("accuracy-master", 1, now);
        RunOne(t1, Advancing("accuracy-master", 1), now);
      }
      assert Snapshot() == Run(t1, master, now);
      RunAppend(t0, perfect, master, now);
    }

    method CheckCombo(combo: int, now: int)
      modifies this
      ensures Snapshot() == Run(old(Snapshot()), ComboSteps(combo), now)
    {
      var u50, u100 := Unlocking("combo-king-50"), Unlocking("combo-master-100");
      ghost var t0 := Snapshot();
      if combo >= 100 {
        var _ := CheckAndUnlock("combo-master-100", now);
        var _ := CheckAndUnlock("combo-king-50", now);
        RunCons(t0, u100, [u50], now);
        RunOne(Apply(t0, u100, now), u50, now);
        assert [u100, u50] == [u100] + [u50];
      } else if combo >= 50 {
        var _ := CheckAndUnlock("combo-king-50", now);
        RunOne(t0, u50, now);
      }
    }

    method CheckLevel(level: int, now: int)
      modifies this
      ensures Snapshot() == Run(old(Snapshot()), LevelSteps(level), now)
    {
      var u5, u10, u15, u20 := Unlocking("level-5"), Unlocking("level-10"), Unlocking("level-15"), Unlocking("level-20");
      ghost var t0 := Snapshot();
      if level >= 20 {
        var _ := CheckAndUnlock("level-20", now);
        var _ := CheckAndUnlock("level-15", now);
        var _ := CheckAndUnlock("level-10", now);
        var _ := CheckAndUnlock("level-5", now);
        ghost var a := Apply(t0, u20, now);
        ghost var b := Apply(a, u15, now);
        ghost var c := Apply(b, u10, now);
        RunCons(t0, u20, [u15, u10, u5], now);
        RunCons(a, u15, [u10, u5], now);
        RunCons(b, u10, [u5], now);
        RunOne(c, u5, now);
        assert [u20, u15, u10, u5] == [u20] + [u15, u10, u5];
        assert [u15, u10, u5] == [u15] + [u10, u5];
        assert [u10, u5] == [u10] + [u5];
      } else if level >= 15 {
        var _ := CheckAndUnlock("level-15", now);
        var _ := CheckAndUnlock("level-10", now);
        var _ := CheckAndUnlock("level-5", now);
        ghost var a := Apply(t0, u15, now);
        ghost var b := Apply(a, u10, now);
        RunCons(t0, u15, [u10, u5], now);
        RunCons(a, u10, [u5], now);
        RunOne(b, u5, now);
        assert [u15, u10, u5] == [u15] + [u10, u5];
        assert [u10, u5] == [u10] + [u5];
      } else if level >= 10 {
        var _ := CheckAndUnlock("level-10", now);
        var _ := CheckAndUnlock("level-5", now);
        RunCons(t0, u10, [u5], now);
        RunOne(Apply(t0, u10, now), u5, now);
        assert [u10, u5] == [u10] + [u5];
      } else if level >= 5 {
        var _ := CheckAndUnlock("level-5", now);
        RunOne(t0, u5, now);
      }
    }

    method CheckProgressive(st: SessionStats, now: int)
      modifies this
      ensures Snapshot() == Run(old(Snapshot()), ProgressSteps(st), now)
    {
      var marathon := Advancing("marathon-runner", st.totalLetters);
      ghost var t0 := Snapshot();
      var _ := IncrementProgress("marathon-runner", st.totalLetters, now);
      ghost var t1 := Snapshot();
      RunOne(t0, marathon, now);
      if st.wordsTyped.Some? && st.wordsTyped.value != 0 {
        var words := Advancing("word-wizard", st.wordsTyped.value);
        var _ := IncrementProgress("word-wizard", st.wordsTyped.value, now);
        RunCons(t0, marathon, [words], now);
        RunOne(t1, words, now);
      } else {
        assert ProgressSteps(st) == [marathon] + [];
      }
    }

    /** The checks after a session, in order: first session, speed tiers,
        accuracy, combo tiers, level tiers, then the progress counters. */
    method CheckSessionAchievements(st: SessionStats, now: int)
      modifies this
      ensures Snapshot() == SessionChecks(old(Snapshot()), st, now)
    {
      ghost var t0 := Snapshot();
      var _ := CheckAndUnlock("first-session", now);
      RunOne(t0, Unlocking("first-session"), now);
      CheckSpeed(st.wpm, now);
      CheckAccuracy(st.accuracy, now);
      CheckCombo(st.combo, now);
      CheckLevel(st.level, now);
      CheckProgressive(st, now);
      SessionRun(t0, st, now);
    }

    method CheckEasterEgg(now: int)
      modifies this
      ensures Snapshot() == AddProgress(old(Snapshot()), "easter-egg-hunter", 1, now)
    {
      var _ := IncrementProgress("easter-egg-hunter", 1, now);
    }

    /** The streak rule, with the time of the last play. */
    method CheckDailyStreak(lastPlayed: int, now: int)
      modifies this
      ensures Snapshot() == DailyStreak(old(Snapshot()), lastPlayed, now)
    {
      var daysSince := (now - lastPlayed) / DayMs;
      if daysSince == 1 {
        var _ := IncrementProgress("week-warrior", 1, now);
      } else if daysSince > 1 {
        var _ := UpdateProgress("week-warrior", 0, now);
      }
    }
  }
}

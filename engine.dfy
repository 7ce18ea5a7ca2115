/** The game engine as the object both front ends update in place: the web
    engine (a class driven by an animation frame and by key events) and the
    native engine (a struct driven by one call per frame that polls the
    keyboard). One class serves both; its catalogue says which level table
    it plays. Every method is proved to compute the matching function of
    module Rules on the engine's fields; the entry points (the constructor,
    Update, KeyDown and Frame) also keep `Valid`. */
module Engine {
  import opened Wrappers
  import opened Levels
  import opened Entities
  import opened Rules
  import Tally

  class Game {
    const catalogue: Catalogue
    var state: GameState
    var letters: seq<Letter>
    var particles: seq<Particle>
    var lives: int
    var maxLives: int
    var score: int
    var combo: int
    var correctCount: int
    var totalCount: int
    var currentLevel: nat
    var level: Level
    var spawnTimer: real
    var levelTimer: real
    var typedLetters: map<char, int>
    var errors: map<char, int>

    /** The engine's fields as one value. */
    function Snapshot(): SessionState
      reads this
    {
      SessionState(state, letters, particles, lives, maxLives, score, combo, correctCount,
                   totalCount, currentLevel, level, spawnTimer, levelTimer, typedLetters, errors)
    }

    ghost predicate Valid()
      reads this
    {
      Consistent(catalogue, Snapshot())
    }

    constructor (catalogue: Catalogue)
      ensures this.catalogue == catalogue
      ensures Snapshot() == Initial(catalogue)
      ensures Valid()
    {
      var player := NewPlayer(400.0, 550.0);
      this.catalogue := catalogue;
      state := Menu;
      letters := [];
      particles := [];
      lives := player.lives;
      maxLives := player.maxLives;
      score := 0;
      combo := 0;
      correctCount := 0;
      totalCount := 0;
      currentLevel := 0;
      level := catalogue.Get(0);
      spawnTimer := 0.0;
      levelTimer := 0.0;
      typedLetters := map[];
      errors := map[];
      new;
      assert Snapshot() == Initial(catalogue);
      InitialConsistent(catalogue);
    }

    method StartGame()
      modifies this
      ensures Snapshot() == Rules.StartGame(old(Snapshot()))
    {
      ResetPlay();
      ResetCounts();
    }

    /** The field, the lives and the timers of a fresh play. */
    method ResetPlay()
      modifies this
      ensures Snapshot() == old(Snapshot()).(state := Playing, lives := old(maxLives), letters := [],
                                            particles := [], spawnTimer := 0.0, levelTimer := 0.0)
    {
      state := Playing;
      lives := maxLives;
      letters := [];
      particles := [];
      spawnTimer := 0.0;
      levelTimer := 0.0;
    }

    /** The score and the counters of a fresh play. */
    method ResetCounts()
      modifies this
      ensures Snapshot() == old(Snapshot()).(score := 0, combo := 0, correctCount := 0, totalCount := 0,
                                            typedLetters := map[], errors := map[])
    {
      score := 0;
      combo := 0;
      correctCount := 0;
      totalCount := 0;
      typedLetters := map[];
      errors := map[];
    }

    method NextLevel()
      modifies this
      ensures Snapshot() == Rules.NextLevel(catalogue, old(Snapshot()))
    {
      currentLevel := currentLevel + 1;
      if currentLevel >= catalogue.Count() {
        currentLevel := catalogue.Count() - 1;
      }
      level := catalogue.Get(currentLevel);
      StartGame();
    }

    /** The matching scan: the last index whose letter shows `c` and lies
        strictly lower than every earlier candidate (starting from -1). */
    method FindTarget(c: char) returns (found: Option<nat>)
      ensures found == Closest(letters, c)
    {
      found := None;
      var maxY := NoMatchY;
      var i := 0;
      while i < |letters|
        invariant 0 <= i <= |letters|
        invariant found == Closest(letters[..i], c)
        invariant maxY == if found.Some? then letters[found.value].y else NoMatchY
      {
        assert letters[..i + 1][..i] == letters[..i];
        if letters[i].ch == c && letters[i].y > maxY {
          found := Some(i);
          maxY := letters[i].y;
        }
        i := i + 1;
      }
      assert letters[..|letters|] == letters;
    }

    /** One keystroke, with the sounds it plays. */
    method HandleLetterTyped(c: char, spray: nat -> Spark) returns (cues: seq<Cue>)
      requires combo >= 0
      modifies this
      ensures Snapshot() == TypeLetter(old(Snapshot()), c, spray)
      ensures cues == TypeLetterCues(old(Snapshot()), c)
    {
      totalCount := totalCount + 1;
      cues := ResolveKey(c, spray);
    }

    /** The matching scan, then the hit or the miss. */
    method ResolveKey(c: char, spray: nat -> Spark) returns (cues: seq<Cue>)
      requires combo >= 0
      modifies this
      ensures Snapshot() == Resolve(old(Snapshot()), c, spray)
      ensures cues == TypeLetterCues(old(Snapshot()), c)
    {
      var found := FindTarget(c);
      match found {
        case Some(i) =>
          cues := HitLetter(i, c, spray);
        case None =>
          cues := MissLetter(c);
      }
    }

    /** A hit: splice the letter out, count it, score it and burst. */
    method HitLetter(i: nat, c: char, spray: nat -> Spark) returns (cues: seq<Cue>)
      requires i < |letters| && combo >= 0
      modifies this
      ensures Snapshot() == Hit(old(Snapshot()), c, i, spray)
      ensures cues == [LetterNote(c), LetterHit] + (if IsMilestone(combo) then [ComboMilestone] else [])
    {
      var letter := letters[i];
      letters := letters[..i] + letters[i + 1..];
      CountHit(c);
      particles := AddBurst(particles, letter.x, letter.y, spray);
      cues := [LetterNote(c), LetterHit];
      if combo > 0 && combo % ComboStep == 0 {
        cues := cues + [ComboMilestone];
      }
    }

    /** The counters of a hit: one more correct key, a longer combo, the
        points at the new combo's multiplier, and the character's tally. */
    method CountHit(c: char)
      requires combo >= 0
      modifies this
      ensures Snapshot() == old(Snapshot()).(correctCount := old(correctCount) + 1, combo := old(combo) + 1,
                                            score := old(score) + BasePoints * Multiplier(old(combo) + 1),
                                            typedLetters := Tally.Bump(old(typedLetters), c))
    {
      correctCount := correctCount + 1;
      combo := combo + 1;
      score := score + BasePoints * (1 + combo / ComboStep);
      typedLetters := typedLetters[c := (if c in typedLetters then typedLetters[c] else 0) + 1];
    }

    /** The burst loop: one new particle per step, each with its own spark. */
    static method AddBurst(ps0: seq<Particle>, x: real, y: real, spray: nat -> Spark) returns (ps: seq<Particle>)
      ensures ps == ps0 + Burst(x, y, spray)
    {
      ps := ps0;
      var k := 0;
      while k < BurstSize
        invariant 0 <= k <= BurstSize
        invariant ps == ps0 + Burst(x, y, spray)[..k]
      {
        ps := ps + [NewParticle(x, y, spray(k))];
        k := k + 1;
      }
    }

    /** A miss: the combo breaks, the score drops by two but not below
        zero, and the character's error count goes up. */
    method MissLetter(c: char) returns (cues: seq<Cue>)
      modifies this
      ensures Snapshot() == Miss(old(Snapshot()), c)
      ensures cues == [WrongLetter]
    {
      combo := 0;
      score := Max(0, score - MissPenalty);
      errors := errors[c := (if c in errors then errors[c] else 0) + 1];
      cues := [WrongLetter];
    }

    /** Push a new letter of the level at the top of the screen. */
    method SpawnLetter(d: Draw, width: real)
      modifies this
      ensures Snapshot() == Rules.SpawnLetter(old(Snapshot()), d, width)
    {
      if |level.letters| == 0 {
        return;
      }
      var ch := level.letters[d.pick % |level.letters|];
      letters := letters + [NewLetter(ch, SpawnX(d, width), level.fallSpeed)];
    }

    /** Every letter falls for `delta` seconds. */
    method MoveLetters(delta: real)
      modifies this
      ensures Snapshot() == old(Snapshot()).(letters := FallAll(old(letters), delta))
    {
      var ls := letters;
      var i := 0;
      while i < |ls|
        invariant 0 <= i <= |ls| == |letters|
        invariant forall j :: 0 <= j < i ==> ls[j] == Fall(letters[j], delta)
        invariant forall j :: i <= j < |ls| ==> ls[j] == letters[j]
        modifies {}
      {
        ls := ls[i := Fall(ls[i], delta)];
        i := i + 1;
      }
      letters := ls;
    }

    /** The web engine's ground check: a scan from the last letter to the
        first that splices out each crossed letter at once. */
    method RemoveGroundedBackward(height: real) returns (cues: seq<Cue>)
      modifies this
      ensures Snapshot() == GroundCheck(old(Snapshot()), height)
      ensures cues == GroundCues(old(lives), Lost(old(letters), height))
    {
      var ls, lv;
      ls, lv, cues := SweepBackward(height);
      var n := Lost(letters, height);
      if n > 0 {
        combo := 0;
        if lv <= 0 {
          state := GameOver;
        }
      }
      letters, lives := ls, lv;
    }

    /** The loop of the web engine's ground check, on the engine's letters
        and lives. Changes nothing. */
    method SweepBackward(height: real) returns (ls: seq<Letter>, lv: int, cues: seq<Cue>)
      ensures ls == Survivors(letters, height)
      ensures lv == lives - Lost(letters, height)
      ensures cues == GroundCues(lives, Lost(letters, height))
    {
      ls, lv := letters, lives;
      cues := [];
      var i := |ls| - 1;
      while i >= 0
        invariant -1 <= i < |letters|
        invariant ls == letters[..i + 1] + Survivors(letters[i + 1..], height)
        invariant lv == lives - Lost(letters[i + 1..], height)
        invariant cues == GroundCues(lives, Lost(letters[i + 1..], height))
        decreases i
      {
        assert ls[i] == letters[i];
        SurvivorsBackStep(letters, i, height);
        if ls[i].y > height + GroundMargin {
          ls := ls[..i] + ls[i + 1..];
          lv := lv - 1;
          cues := cues + [LifeLost];
          if lv <= 0 {
            cues := cues + [GameOverSfx];
          }
        }
        i := i - 1;
      }
      assert letters[0..] == letters;
    }

    /** The first pass of the native engine's ground check: the indices of
        the crossed letters, in increasing order, with the lives, combo and
        state after losing one life for each. Changes nothing. */
    method CollectGrounded(height: real) returns (toRemove: seq<nat>, lv: int, cb: int, st: GameState)
      ensures |toRemove| == Lost(letters, height)
      ensures Marks(letters, toRemove, height)
      ensures lv == lives - |toRemove|
      ensures cb == if |toRemove| > 0 then 0 else combo
      ensures st == if |toRemove| > 0 && lv <= 0 then GameOver else state
    {
      toRemove := [];
      lv, cb, st := lives, combo, state;
      var ls := letters;
      var i := 0;
      while i < |ls|
        invariant 0 <= i <= |ls|
        invariant |toRemove| == Lost(ls[..i], height)
        invariant forall k :: 0 <= k < |toRemove| ==> toRemove[k] < i && IsOffScreen(ls[toRemove[k]], height)
        invariant forall k, m :: 0 <= k < m < |toRemove| ==> toRemove[k] < toRemove[m]
        invariant forall j :: 0 <= j < i && IsOffScreen(ls[j], height) ==> j in toRemove
        invariant lv == lives - |toRemove|
        invariant cb == if |toRemove| > 0 then 0 else combo
        invariant st == if |toRemove| > 0 && lv <= 0 then GameOver else state
      {
        LostStep(ls, i, height);
        if IsOffScreen(ls[i], height) {
          toRemove := toRemove + [i];
          lv := lv - 1;
          cb := 0;
          if lv <= 0 {
            st := GameOver;
          }
        }
        i := i + 1;
      }
      assert ls[..|ls|] == ls;
    }

    /** The second pass: remove the collected indices from the back to the
        front, so that the earlier ones stay valid. Changes nothing. */
    method RemoveBackToFront(toRemove: seq<nat>, height: real) returns (ls: seq<Letter>)
      requires Marks(letters, toRemove, height)
      ensures ls == Survivors(letters, height)
    {
      ls := letters;
      var k := |toRemove|;
      MarksStart(letters, toRemove, height);
      while k > 0
        invariant 0 <= k <= |toRemove|
        invariant Mark(toRemove, k) <= |letters|
        invariant ls == letters[..Mark(toRemove, k)] + Survivors(letters[Mark(toRemove, k)..], height)
        decreases k
      {
        MarksStep(letters, toRemove, k, height);
        var r := toRemove[k - 1];
        ls := ls[..r] + ls[r + 1..];
        k := k - 1;
      }
      assert letters[0..] == letters;
    }

    /** The native engine's ground check: collect, then remove. */
    method RemoveGroundedCollect(height: real)
      modifies this
      ensures Snapshot() == GroundCheck(old(Snapshot()), height)
    {
      var toRemove, lv, cb, st := CollectGrounded(height);
      var ls := RemoveBackToFront(toRemove, height);
      letters, lives, combo, state := ls, lv, cb, st;
    }

    /** Particles move and age; dead ones are dropped. */
    method UpdateParticles(delta: real)
      modifies this
      ensures Snapshot() == Rules.UpdateParticles(old(Snapshot()), delta)
    {
      var ps := particles;
      var i := 0;
      while i < |ps|
        invariant 0 <= i <= |ps| == |particles|
        invariant forall j :: 0 <= j < i ==> ps[j] == Step(particles[j], delta)
        invariant forall j :: i <= j < |ps| ==> ps[j] == particles[j]
        modifies {}
      {
        ps := ps[i := Step(ps[i], delta)];
        i := i + 1;
      }
      assert ps == StepAll(particles, delta);
      particles := Alive(ps);
    }

    /** The start of a playing frame: both timers advance, and a letter
        spawns when the spawn timer has reached the level's rate. */
    method Tick(delta: real, width: real, d: Draw)
      modifies this
      ensures Snapshot() == SpawnIfDue(Timers(old(Snapshot()), delta), d, width)
    {
      levelTimer := levelTimer + delta;
      spawnTimer := spawnTimer + delta;
      if spawnTimer >= level.spawnRate {
        SpawnLetter(d, width);
        spawnTimer := 0.0;
      }
    }

    /** The end of a playing frame: particles, then the completion check. */
    method Finish(delta: real)
      modifies this
      ensures Snapshot() == CheckCompletion(Rules.UpdateParticles(old(Snapshot()), delta))
    {
      UpdateParticles(delta);
      if TimeUp(levelTimer, level.duration) && lives > 0 {
        state := LevelComplete;
      }
    }

    /** The web engine's playing frame, with the sounds it plays. */
    method UpdateWeb(delta: real, width: real, height: real, d: Draw) returns (cues: seq<Cue>)
      requires state == Playing
      modifies this
      ensures Snapshot() == WebUpdate(old(Snapshot()), delta, width, height, d)
      ensures cues == WebUpdateCues(old(Snapshot()), delta, width, height, d)
    {
      Tick(delta, width, d);
      MoveLetters(delta);
      cues := RemoveGroundedBackward(height);
      assert Snapshot() == PlayingStep(old(Snapshot()), delta, width, height, d);
      Finish(delta);
      if state == LevelComplete {
        cues := cues + [LevelCompleteSfx];
      }
    }

    /** The web engine's frame: only a playing game moves. */
    method Update(delta: real, width: real, height: real, d: Draw) returns (cues: seq<Cue>)
      requires Valid()
      modifies this
      ensures Snapshot() == WebUpdate(old(Snapshot()), delta, width, height, d)
      ensures cues == WebUpdateCues(old(Snapshot()), delta, width, height, d)
      ensures Valid()
    {
      cues := [];
      if state == Playing {
        cues := UpdateWeb(delta, width, height, d);
      }
      WebUpdateConsistent(catalogue, old(Snapshot()), delta, width, height, d);
    }

    /** The native engine's key polling: every letter key pressed this frame,
        in the fixed key order. */
    method HandleInput(pressed: set<Key>, spray: nat -> Spark)
      requires combo >= 0
      modifies this
      ensures Snapshot() == TypeAll(old(Snapshot()), KeysDown(LetterKeys, pressed), spray)
    {
      var k := 0;
      while k < |LetterKeys|
        invariant 0 <= k <= |LetterKeys|
        invariant combo >= 0
        invariant Snapshot() == TypeAll(old(Snapshot()), KeysDown(LetterKeys[..k], pressed), spray)
      {
        var ch := LetterKeys[k];
        assert LetterKeys[..k + 1] == LetterKeys[..k] + [ch];
        PollSnoc(old(Snapshot()), LetterKeys[..k], ch, pressed, spray);
        PollKey(ch, pressed, spray);
        k := k + 1;
      }
      assert LetterKeys[..|LetterKeys|] == LetterKeys;
    }

    /** Poll one key: type its character if it is down. */
    method PollKey(ch: char, pressed: set<Key>, spray: nat -> Spark)
      requires combo >= 0
      modifies this
      ensures Snapshot() == if Char(ch) in pressed then TypeLetter(old(Snapshot()), ch, spray) else old(Snapshot())
    {
      if Char(ch) in pressed {
        var _ := HandleLetterTyped(ch, spray);
      }
    }

    /** The native engine's playing frame. */
    method UpdatePlaying(delta: real, width: real, height: real, d: Draw,
                         pressed: set<Key>, spray: nat -> Spark)
      requires combo >= 0
      modifies this
      ensures Snapshot()
           == NativeUpdatePlaying(old(Snapshot()), delta, width, height, d, KeysDown(LetterKeys, pressed), spray)
    {
      Tick(delta, width, d);
      MoveLetters(delta);
      RemoveGroundedCollect(height);
      assert Snapshot() == PlayingStep(old(Snapshot()), delta, width, height, d);
      HandleInput(pressed, spray);
      Finish(delta);
    }

    /** One native frame: the state decides what it polls and does. */
    method Frame(delta: real, width: real, height: real, d: Draw,
                 pressed: set<Key>, spray: nat -> Spark)
      requires Valid()
      modifies this
      ensures Snapshot() == NativeFrame(catalogue, old(Snapshot()), delta, width, height, d, pressed, spray)
      ensures Valid()
    {
      match state {
        case Menu =>
          if Space in pressed || Enter in pressed {
            StartGame();
          }
        case Playing =>
          UpdatePlaying(delta, width, height, d, pressed, spray);
        case LevelComplete =>
          if Space in pressed || Enter in pressed {
            NextLevel();
          } else if Char('M') in pressed {
            state := Menu;
          }
        case GameOver =>
          if Space in pressed || Char('R') in pressed {
            StartGame();
          } else if Char('M') in pressed {
            state := Menu;
          }
      }
      assert Snapshot() == NativeFrame(catalogue, old(Snapshot()), delta, width, height, d, pressed, spray);
      NativeFrameConsistent(catalogue, old(Snapshot()), delta, width, height, d, pressed, spray);
    }

    /** The web engine's key handler, with the sounds it plays. */
    method KeyDown(e: KeyEvent, spray: nat -> Spark) returns (cues: seq<Cue>)
      requires Valid()
      modifies this
      ensures Snapshot() == WebKeyDown(catalogue, old(Snapshot()), e, spray)
      ensures cues == WebKeyDownCues(old(Snapshot()), e)
      ensures Valid()
    {
      cues := [];
      match state {
        case Menu =>
          if e.code == "Space" || e.code == "Enter" {
            StartGame();
          }
        case Playing =>
          if |e.key| == 1 && IsLetterKey(Upper(e.key[0])) {
            cues := HandleLetterTyped(Upper(e.key[0]), spray);
          }
        case LevelComplete =>
          if e.code == "Space" || e.code == "Enter" {
            NextLevel();
          } else if e.key == "m" || e.key == "M" {
            state := Menu;
          }
        case GameOver =>
          if e.code == "Space" || e.key == "r" || e.key == "R" {
            StartGame();
          } else if e.key == "m" || e.key == "M" {
            state := Menu;
          }
      }
      assert Snapshot() == WebKeyDown(catalogue, old(Snapshot()), e, spray);
      WebKeyDownConsistent(catalogue, old(Snapshot()), e, spray);
    }
  }
}

/** The rules of one game, as functions from one game state to the next.
    Each operation of the engine class (module Engine) is proved to compute
    exactly these functions; the properties of the game are proved here. */
module Rules {
  import opened Wrappers
  import opened Levels
  import opened Entities
  import opened Tally

  datatype GameState = Menu | Playing | LevelComplete | GameOver

  /** Everything the engine keeps between frames. */
  datatype SessionState = SessionState(
    state: GameState,
    letters: seq<Letter>,
    particles: seq<Particle>,
    lives: int,
    maxLives: int,
    score: int,
    combo: int,
    correctCount: int,
    totalCount: int,
    currentLevel: nat,
    level: Level,
    spawnTimer: real,
    levelTimer: real,
    typedLetters: map<char, int>,   // hits per character
    errors: map<char, int>)         // misses per character

  /** Sound cues the engine asks the audio layer to play. */
  datatype Cue =
    | LetterNote(ch: char)
    | LetterHit
    | ComboMilestone
    | WrongLetter
    | LifeLost
    | GameOverSfx
    | LevelCompleteSfx

  const BasePoints: int := 10
  const MissPenalty: int := 2
  const ComboStep: int := 10
  const BurstSize: nat := 15
  const SpawnMargin: real := 60.0
  /** The matcher only accepts letters strictly below this height. */
  const NoMatchY: real := -1.0

  function Max(a: int, b: int): int { if a >= b then a else b }

  /** What stays true of a game from its start: the counters agree with each
      other and with the per-character maps, and the score is never negative. */
  ghost predicate Inv(s: SessionState) {
    && 0 <= s.correctCount <= s.totalCount
    && 0 <= s.combo <= s.correctCount
    && s.score >= 0
    && s.lives <= s.maxLives
    && Total(s.typedLetters) == s.correctCount
    && Total(s.errors) == s.totalCount - s.correctCount
  }

  // ------------------------------------------------------ start and levels

  /** Fresh counters for a new play of the current level. */
  function StartGame(s: SessionState): SessionState {
    s.(state := Playing, lives := s.maxLives, letters := [], particles := [],
       score := 0, combo := 0, correctCount := 0, totalCount := 0,
       spawnTimer := 0.0, levelTimer := 0.0, typedLetters := map[], errors := map[])
  }

  /** Move to the next level of the catalogue (capped at the last) and start. */
  function NextLevel(cat: Catalogue, s: SessionState): SessionState {
    var n := cat.Next(s.currentLevel);
    StartGame(s.(currentLevel := n, level := cat.Get(n)))
  }

  /** Starting resets every per-play counter whatever came before, keeps the
      level, and establishes the invariant. */
  lemma StartGameResets(s: SessionState, t: SessionState)
    requires s.level == t.level && s.currentLevel == t.currentLevel && s.maxLives == t.maxLives
    ensures StartGame(s) == StartGame(t)
    ensures StartGame(StartGame(s)) == StartGame(s)
    ensures StartGame(s).state == Playing && StartGame(s).lives == s.maxLives
    ensures StartGame(s).level == s.level && StartGame(s).currentLevel == s.currentLevel
    ensures s.maxLives >= 0 ==> Inv(StartGame(s))
    ensures var r := StartGame(s);
      && r.letters == [] && r.particles == []
      && r.score == 0 && r.combo == 0 && r.correctCount == 0 && r.totalCount == 0
      && r.spawnTimer == 0.0 && r.levelTimer == 0.0
      && r.typedLetters == map[] && r.errors == map[]
  {
  }

  /** Next level: the index is capped at the catalogue's last entry, the level
      record is the catalogue's, and the play starts afresh. */
  lemma NextLevelCapped(cat: Catalogue, s: SessionState)
    ensures NextLevel(cat, s).currentLevel < cat.Count()
    ensures NextLevel(cat, s).level == cat.Get(NextLevel(cat, s).currentLevel)
    ensures s.currentLevel + 1 < cat.Count() ==> NextLevel(cat, s).currentLevel == s.currentLevel + 1
    ensures cat.Web? ==> NextLevel(cat, s).currentLevel <= 4
    ensures cat.Native? ==> NextLevel(cat, s).currentLevel <= 7
    ensures NextLevel(cat, s).state == Playing && NextLevel(cat, s).score == 0
  {
  }

  // ------------------------------------------------------------- matching

  /** The letter a keystroke hits: among letters showing `c` and lower than
      NoMatchY on screen, the one closest to the ground; on equal heights the
      earliest. Defined as the source's left-to-right scan. */
  function Closest(ls: seq<Letter>, c: char): (r: Option<nat>)
    ensures r.Some? ==> r.value < |ls| && ls[r.value].ch == c && ls[r.value].y > NoMatchY
    decreases |ls|
  {
    if ls == [] then None
    else
      var p := Closest(ls[..|ls| - 1], c);
      var best := if p.Some? then ls[p.value].y else NoMatchY;
      var last := ls[|ls| - 1];
      if last.ch == c && last.y > best then Some(|ls| - 1) else p
  }

  /** The matched letter is the lowest one showing `c` and the first among
      equally low ones; there is no match exactly when every letter showing
      `c` is at or above NoMatchY. */
  lemma {:induction false} ClosestIsLowest(ls: seq<Letter>, c: char)
    ensures var r := Closest(ls, c);
      && (r.Some? ==> forall j :: 0 <= j < |ls| && ls[j].ch == c ==> ls[j].y <= ls[r.value].y)
      && (r.Some? ==> forall j :: 0 <= j < r.value && ls[j].ch == c ==> ls[j].y < ls[r.value].y)
      && (r.None? <==> forall j :: 0 <= j < |ls| && ls[j].ch == c ==> ls[j].y <= NoMatchY)
    decreases |ls|
  {
    if ls != [] {
      var init := ls[..|ls| - 1];
      ClosestIsLowest(init, c);
      assert forall j :: 0 <= j < |init| ==> init[j] == ls[j];
    }
  }

  /** The properties pin the matched index down: any index that has them is
      the one Closest returns. */
  lemma ClosestUnique(ls: seq<Letter>, c: char, k: nat)
    requires k < |ls| && ls[k].ch == c && ls[k].y > NoMatchY
    requires forall j :: 0 <= j < |ls| && ls[j].ch == c ==> ls[j].y <= ls[k].y
    requires forall j :: 0 <= j < k && ls[j].ch == c ==> ls[j].y < ls[k].y
    ensures Closest(ls, c) == Some(k)
  {
    ClosestIsLowest(ls, c);
    assert Closest(ls, c).Some?;
  }

  /** Splice one element out; the others keep their order. */
  function RemoveAt<T>(s: seq<T>, i: nat): (r: seq<T>)
    requires i < |s|
    ensures |r| == |s| - 1
    ensures forall j :: 0 <= j < i ==> r[j] == s[j]
    ensures forall j :: i <= j < |r| ==> r[j] == s[j + 1]
    ensures multiset(r) + multiset{s[i]} == multiset(s)
  {
    assert s == s[..i] + [s[i]] + s[i + 1..];
    s[..i] + s[i + 1..]
  }

  // --------------------------------------------------------------- scoring

  /** The combo multiplier: one more for every ten consecutive hits. */
  function Multiplier(combo: int): int
    requires combo >= 0
  {
    1 + combo / ComboStep
  }

  /** The milestone cue plays when the combo reaches a positive multiple of 10. */
  predicate IsMilestone(combo: int) {
    combo > 0 && combo % ComboStep == 0
  }

  /** The particles a hit sends out from (x, y). */
  function Burst(x: real, y: real, spray: nat -> Spark): (ps: seq<Particle>)
    ensures |ps| == BurstSize
    ensures forall i :: 0 <= i < BurstSize ==> ps[i] == NewParticle(x, y, spray(i))
  {
    seq(BurstSize, i requires 0 <= i => NewParticle(x, y, spray(i)))
  }

  /** A hit on letter `i`. */
  function Hit(s: SessionState, c: char, i: nat, spray: nat -> Spark): SessionState
    requires i < |s.letters| && s.combo >= 0
  {
    var l := s.letters[i];
    var combo := s.combo + 1;
    s.(letters := RemoveAt(s.letters, i),
       correctCount := s.correctCount + 1,
       combo := combo,
       score := s.score + BasePoints * Multiplier(combo),
       typedLetters := Bump(s.typedLetters, c),
       particles := s.particles + Burst(l.x, l.y, spray))
  }

  /** A keystroke that hits nothing. */
  function Miss(s: SessionState, c: char): SessionState {
    s.(combo := 0, score := Max(0, s.score - MissPenalty), errors := Bump(s.errors, c))
  }

  /** One processed keystroke: it always counts, then hits or misses. */
  function TypeLetter(s: SessionState, c: char, spray: nat -> Spark): SessionState
    requires s.combo >= 0
  {
    Resolve(s.(totalCount := s.totalCount + 1), c, spray)
  }

  /** A counted keystroke hits the closest matching letter or misses. */
  function Resolve(s: SessionState, c: char, spray: nat -> Spark): SessionState
    requires s.combo >= 0
  {
    match Closest(s.letters, c)
    case Some(i) => Hit(s, c, i, spray)
    case None => Miss(s, c)
  }

  /** The sounds a keystroke plays. */
  function TypeLetterCues(s: SessionState, c: char): seq<Cue>
    requires s.combo >= 0
  {
    if Closest(s.letters, c).Some? then
      [LetterNote(c), LetterHit] + (if IsMilestone(s.combo + 1) then [ComboMilestone] else [])
    else
      [WrongLetter]
  }

  /** What one keystroke does, as the two engines promise it. */
  lemma TypeLetterOutcome(s: SessionState, c: char, spray: nat -> Spark)
    requires s.combo >= 0
    ensures var r := TypeLetter(s, c, spray);
      && r.totalCount == s.totalCount + 1
      && r.state == s.state && r.lives == s.lives && r.level == s.level
      && (match Closest(s.letters, c)
          case Some(i) =>
            && r.letters == RemoveAt(s.letters, i)
            && r.correctCount == s.correctCount + 1
            && r.combo == s.combo + 1
            && r.score == s.score + 10 * (1 + r.combo / 10)
            && r.typedLetters == Bump(s.typedLetters, c) && r.errors == s.errors
            && |r.particles| == |s.particles| + 15
          case None =>
            && r.letters == s.letters
            && r.correctCount == s.correctCount
            && r.combo == 0
            && r.score == Max(0, s.score - 2)
            && r.errors == Bump(s.errors, c) && r.typedLetters == s.typedLetters)
  {
  }

  /** The milestone cue plays exactly on hits that bring the combo to a
      positive multiple of ten. */
  lemma MilestoneCue(s: SessionState, c: char, spray: nat -> Spark)
    requires s.combo >= 0
    ensures ComboMilestone in TypeLetterCues(s, c) <==>
              Closest(s.letters, c).Some? && TypeLetter(s, c, spray).combo % 10 == 0
    ensures WrongLetter in TypeLetterCues(s, c) <==> Closest(s.letters, c).None?
  {
  }

  /** A keystroke keeps the invariant: in particular hits never outnumber
      keystrokes, the per-character maps add up to the hit and miss counts,
      and the score stays non-negative. */
  lemma TypeLetterInv(s: SessionState, c: char, spray: nat -> Spark)
    requires Inv(s)
    ensures Inv(TypeLetter(s, c, spray))
  {
    match Closest(s.letters, c)
    case Some(i) => BumpTotal(s.typedLetters, c);
    case None => BumpTotal(s.errors, c);
  }

  /** The native engine's keystrokes of one frame, in key order. */
  function TypeAll(s: SessionState, keys: seq<char>, spray: nat -> Spark): (r: SessionState)
    requires s.combo >= 0
    ensures r.combo >= 0
    ensures r.totalCount == s.totalCount + |keys|
    ensures r.lives == s.lives && r.state == s.state
    ensures r.level == s.level && r.currentLevel == s.currentLevel && r.maxLives == s.maxLives
    decreases |keys|
  {
    if keys == [] then s
    else
      var t := TypeLetter(s, keys[0], spray);
      TypeAll(t, keys[1..], spray)
  }

  lemma {:induction false} TypeAllInv(s: SessionState, keys: seq<char>, spray: nat -> Spark)
    requires Inv(s)
    ensures Inv(TypeAll(s, keys, spray))
    decreases |keys|
  {
    if keys != [] {
      TypeLetterInv(s, keys[0], spray);
      TypeAllInv(TypeLetter(s, keys[0], spray), keys[1..], spray);
    }
  }

  /** Scenario: a 49-hit combo becomes 50 on the next hit, the multiplier is
      six and the milestone plays. */
  lemma FiftiethHit(s: SessionState, c: char, spray: nat -> Spark)
    requires s.combo == 49 && Closest(s.letters, c).Some?
    ensures TypeLetter(s, c, spray).combo == 50
    ensures TypeLetter(s, c, spray).score == s.score + 60
    ensures ComboMilestone in TypeLetterCues(s, c)
  {
  }

  // ------------------------------------------------------------- spawning

  /** The random choices of one spawn: `pick` selects the character (taken
      modulo the letter set's size) and `offset` in [0, 1) the column. */
  datatype Draw = Draw(pick: nat, offset: real)

  function SpawnX(d: Draw, width: real): real {
    SpawnMargin + d.offset * (width - 2.0 * SpawnMargin)
  }

  /** Push one new letter of the level, unless the level has no letters. */
  function SpawnLetter(s: SessionState, d: Draw, width: real): SessionState {
    if |s.level.letters| == 0 then s
    else
      var ch := s.level.letters[d.pick % |s.level.letters|];
      s.(letters := s.letters + [NewLetter(ch, SpawnX(d, width), s.level.fallSpeed)])
  }

  /** Both timers advance by the frame's time. */
  function Timers(s: SessionState, delta: real): SessionState {
    s.(levelTimer := s.levelTimer + delta, spawnTimer := s.spawnTimer + delta)
  }

  /** Spawn once the spawn timer has reached the level's spawn rate. */
  function SpawnIfDue(s: SessionState, d: Draw, width: real): SessionState {
    if s.spawnTimer >= s.level.spawnRate then SpawnLetter(s, d, width).(spawnTimer := 0.0)
    else s
  }

  /** A due spawn adds exactly one letter of the level at the top, inside
      the margins, at the level's speed, and restarts the spawn timer. */
  lemma SpawnOne(s: SessionState, d: Draw, width: real)
    requires s.spawnTimer >= s.level.spawnRate && |s.level.letters| > 0
    requires 0.0 <= d.offset < 1.0 && width >= 2.0 * SpawnMargin
    ensures var r := SpawnIfDue(s, d, width);
      && |r.letters| == |s.letters| + 1 && r.letters[..|s.letters|] == s.letters
      && r.spawnTimer == 0.0
      && (var l := r.letters[|s.letters|];
          && l.ch in s.level.letters && l.y == -50.0 && l.speed == s.level.fallSpeed
          && SpawnMargin <= l.x <= width - SpawnMargin)
  {
    var band := width - 2.0 * SpawnMargin;
    assert 0.0 <= d.offset * band <= band by {
      assert (1.0 - d.offset) * band >= 0.0;
    }
    assert SpawnIfDue(s, d, width).letters[|s.letters|].x == SpawnMargin + d.offset * band;
  }

  /** Before the spawn timer is due nothing spawns. */
  lemma SpawnNotDue(s: SessionState, d: Draw, width: real)
    requires s.spawnTimer < s.level.spawnRate
    ensures SpawnIfDue(s, d, width) == s
  {
  }

  // -------------------------------------------------- movement and ground

  function FallAll(ls: seq<Letter>, delta: real): (r: seq<Letter>)
    ensures |r| == |ls|
    ensures forall i :: 0 <= i < |ls| ==> r[i] == Fall(ls[i], delta)
  {
    seq(|ls|, i requires 0 <= i < |ls| => Fall(ls[i], delta))
  }

  /** The letters still above the ground line, in their original order. */
  function Survivors(ls: seq<Letter>, screenHeight: real): seq<Letter>
    decreases |ls|
  {
    if ls == [] then []
    else
      (if IsOffScreen(ls[0], screenHeight) then [] else [ls[0]])
        + Survivors(ls[1..], screenHeight)
  }

  /** Survivors keeps exactly the letters that have not crossed. */
  lemma {:induction false} SurvivorsMembers(ls: seq<Letter>, h: real)
    ensures forall l :: l in Survivors(ls, h) <==> l in ls && !IsOffScreen(l, h)
    decreases |ls|
  {
    if ls != [] {
      SurvivorsMembers(ls[1..], h);
      assert ls == [ls[0]] + ls[1..];
    }
  }

  /** How many letters crossed the ground line. */
  function Lost(ls: seq<Letter>, screenHeight: real): (n: nat)
    ensures n + |Survivors(ls, screenHeight)| == |ls|
    decreases |ls|
  {
    if ls == [] then 0
    else (if IsOffScreen(ls[0], screenHeight) then 1 else 0) + Lost(ls[1..], screenHeight)
  }

  /** Survivors and Lost work piecewise, which gives both their order and the
      loops that remove letters from either end. */
  lemma {:induction false} SurvivorsAppend(a: seq<Letter>, b: seq<Letter>, h: real)
    ensures Survivors(a + b, h) == Survivors(a, h) + Survivors(b, h)
    ensures Lost(a + b, h) == Lost(a, h) + Lost(b, h)
    decreases |a|
  {
    if a != [] {
      assert (a + b)[1..] == a[1..] + b;
      SurvivorsAppend(a[1..], b, h);
    } else {
      assert a + b == b;
    }
  }

  /** Scanning one more letter adds one to the count of lost letters
      exactly when that letter has crossed. */
  lemma LostStep(ls: seq<Letter>, i: nat, h: real)
    requires i < |ls|
    ensures Lost(ls[..i + 1], h) == Lost(ls[..i], h) + (if IsOffScreen(ls[i], h) then 1 else 0)
  {
    assert ls[..i + 1] == ls[..i] + [ls[i]];
    SurvivorsAppend(ls[..i], [ls[i]], h);
  }

  /** When nothing has crossed, nothing is removed. */
  lemma {:induction false} SurvivorsAll(ls: seq<Letter>, h: real)
    requires forall i :: 0 <= i < |ls| ==> !IsOffScreen(ls[i], h)
    ensures Survivors(ls, h) == ls && Lost(ls, h) == 0
    decreases |ls|
  {
    if ls != [] {
      SurvivorsAll(ls[1..], h);
    }
  }

  /** Removing the crossed letter at `r` when nothing crossed in [p, r): the
      step of the native engine's back-to-front removal. */
  lemma SurvivorsSplit(ls: seq<Letter>, p: nat, r: nat, h: real)
    requires p <= r < |ls| && IsOffScreen(ls[r], h)
    requires forall j :: p <= j < r ==> !IsOffScreen(ls[j], h)
    ensures ls[..p] + Survivors(ls[p..], h) == ls[..r] + Survivors(ls[r + 1..], h)
  {
    var pre, mid, tail := ls[..p], ls[p..r], ls[r + 1..];
    SurvivorsGap(ls, p, r, h);
    assert ls[p..] == mid + ([ls[r]] + tail);
    assert ls[..r] == pre + mid;
    SurvivorsPieces(pre, mid, ls[r], tail, h);
  }

  /** The same step on the pieces themselves. */
  lemma SurvivorsPieces(pre: seq<Letter>, mid: seq<Letter>, x: Letter, tail: seq<Letter>, h: real)
    requires Survivors(mid, h) == mid && IsOffScreen(x, h)
    ensures pre + Survivors(mid + ([x] + tail), h) == (pre + mid) + Survivors(tail, h)
  {
    SurvivorsAppend(mid, [x] + tail, h);
    SurvivorsDropFirst([x] + tail, h);
    assert ([x] + tail)[1..] == tail;
  }

  /** A stretch where nothing crossed survives whole. */
  lemma SurvivorsGap(ls: seq<Letter>, p: nat, r: nat, h: real)
    requires p <= r <= |ls|
    requires forall j :: p <= j < r ==> !IsOffScreen(ls[j], h)
    ensures Survivors(ls[p..r], h) == ls[p..r]
  {
    var mid := ls[p..r];
    forall i | 0 <= i < |mid|
      ensures !IsOffScreen(mid[i], h)
    {
      assert mid[i] == ls[p + i];
    }
    SurvivorsAll(mid, h);
  }

  /** A crossed first letter is dropped. */
  lemma SurvivorsDropFirst(ls: seq<Letter>, h: real)
    requires ls != [] && IsOffScreen(ls[0], h)
    ensures Survivors(ls, h) == Survivors(ls[1..], h)
  {
  }

  /** `idx` lists, in increasing order, exactly the indices of the crossed
      letters of `ls`: what the native engine's first pass collects. */
  ghost predicate Marks(ls: seq<Letter>, idx: seq<nat>, h: real) {
    && (forall k :: 0 <= k < |idx| ==> idx[k] < |ls| && IsOffScreen(ls[idx[k]], h))
    && (forall k, m :: 0 <= k < m < |idx| ==> idx[k] < idx[m])
    && (forall j :: 0 <= j < |ls| && IsOffScreen(ls[j], h) ==> j in idx)
  }

  /** Where the back-to-front removal stands after the last `k` marks. */
  function Mark(idx: seq<nat>, k: nat): nat
    requires k <= |idx|
  {
    if k == 0 then 0 else idx[k - 1] + 1
  }

  /** No mark lies after the last one, so nothing after it crossed. */
  lemma NoneAfterMarks(ls: seq<Letter>, idx: seq<nat>, h: real)
    requires Marks(ls, idx, h)
    ensures Mark(idx, |idx|) <= |ls|
    ensures forall j :: Mark(idx, |idx|) <= j < |ls| ==> !IsOffScreen(ls[j], h)
  {
    var p := Mark(idx, |idx|);
    forall j | p <= j < |ls|
      ensures j !in idx
    {
      forall m | 0 <= m < |idx|
        ensures idx[m] != j
      {
        if m < |idx| - 1 {
          assert idx[m] < idx[|idx| - 1];
        }
      }
    }
  }

  /** Nothing crossed after the last mark. */
  lemma MarksStart(ls: seq<Letter>, idx: seq<nat>, h: real)
    requires Marks(ls, idx, h)
    ensures Mark(idx, |idx|) <= |ls|
    ensures ls == ls[..Mark(idx, |idx|)] + Survivors(ls[Mark(idx, |idx|)..], h)
  {
    NoneAfterMarks(ls, idx, h);
    var p := Mark(idx, |idx|);
    var tail := ls[p..];
    assert forall j :: 0 <= j < |tail| ==> !IsOffScreen(tail[j], h);
    SurvivorsAll(tail, h);
    assert ls == ls[..p] + tail;
  }

  /** Removing the `k`-th mark: nothing crossed between it and the mark
      before, so the letters before it stay put. */
  lemma MarksStep(ls: seq<Letter>, idx: seq<nat>, k: nat, h: real)
    requires Marks(ls, idx, h) && 0 < k <= |idx|
    ensures Mark(idx, k) <= |ls|
    ensures var r := idx[k - 1];
      var w := ls[..r + 1] + Survivors(ls[r + 1..], h);
      w[..r] + w[r + 1..] == ls[..Mark(idx, k - 1)] + Survivors(ls[Mark(idx, k - 1)..], h)
  {
    var r, q := idx[k - 1], Mark(idx, k - 1);
    forall j | q <= j < r
      ensures !IsOffScreen(ls[j], h)
    {
      forall m | 0 <= m < |idx|
        ensures idx[m] != j
      {
        if m < k - 2 {
          assert idx[m] < idx[k - 2];
        } else if m > k - 1 {
          assert idx[k - 1] < idx[m];
        }
      }
    }
    SurvivorsSplit(ls, q, r, h);
    var w := ls[..r + 1] + Survivors(ls[r + 1..], h);
    assert w[..r] == ls[..r];
    assert w[r + 1..] == Survivors(ls[r + 1..], h);
  }

  /** One step of the web engine's back-to-front removal at index `i`. */
  lemma SurvivorsBackStep(ls: seq<Letter>, i: nat, h: real)
    requires i < |ls|
    ensures Lost(ls[i..], h) == (if IsOffScreen(ls[i], h) then 1 else 0) + Lost(ls[i + 1..], h)
    ensures IsOffScreen(ls[i], h) ==>
      var w := ls[..i + 1] + Survivors(ls[i + 1..], h);
      w[..i] + w[i + 1..] == ls[..i] + Survivors(ls[i..], h)
    ensures !IsOffScreen(ls[i], h) ==>
      ls[..i + 1] + Survivors(ls[i + 1..], h) == ls[..i] + Survivors(ls[i..], h)
  {
    assert ls[i..][1..] == ls[i + 1..];
    var rest := Survivors(ls[i + 1..], h);
    var whole := ls[..i + 1] + rest;
    if IsOffScreen(ls[i], h) {
      assert whole[..i] == ls[..i];
      assert whole[i + 1..] == rest;
    } else {
      assert ls[..i + 1] == ls[..i] + [ls[i]];
    }
  }

  /** Ground check: every crossed letter is removed, costs a life and breaks
      the combo; the game is over once lives reach zero or below. */
  function GroundCheck(s: SessionState, h: real): SessionState {
    var n := Lost(s.letters, h);
    s.(letters := Survivors(s.letters, h),
       lives := s.lives - n,
       combo := if n > 0 then 0 else s.combo,
       state := if n > 0 && s.lives - n <= 0 then GameOver else s.state)
  }

  /** The sounds of the ground check, in removal order: one life-lost cue per
      lost letter, followed by a game-over cue whenever the lives left after
      that loss are at zero or below. */
  function GroundCues(lives: int, n: nat): seq<Cue>
    decreases n
  {
    if n == 0 then []
    else GroundCues(lives, n - 1) + [LifeLost] + (if lives - n <= 0 then [GameOverSfx] else [])
  }

  /** One life-lost cue per lost letter; the game-over cue plays exactly when
      the lives end at zero or below after at least one loss. */
  lemma {:induction false} GroundCuesCount(lives: int, n: nat)
    ensures multiset(GroundCues(lives, n))[LifeLost] == n
    ensures GameOverSfx in GroundCues(lives, n) <==> n > 0 && lives - n <= 0
    decreases n
  {
    if n > 0 {
      GroundCuesCount(lives, n - 1);
    }
  }

  lemma GroundCheckEffect(s: SessionState, h: real)
    ensures var r := GroundCheck(s, h);
      && s.lives - r.lives == |s.letters| - |r.letters|
      && (forall l :: l in r.letters <==> l in s.letters && !IsOffScreen(l, h))
      && (r.lives < s.lives ==> r.combo == 0)
      && (r.state == GameOver <==> s.state == GameOver || (r.lives < s.lives && r.lives <= 0))
      && (Inv(s) ==> Inv(r))
  {
    SurvivorsMembers(s.letters, h);
  }

  // -------------------------------------------------------------- particles

  function StepAll(ps: seq<Particle>, delta: real): (r: seq<Particle>)
    ensures |r| == |ps|
    ensures forall i :: 0 <= i < |ps| ==> r[i] == Step(ps[i], delta)
  {
    seq(|ps|, i requires 0 <= i < |ps| => Step(ps[i], delta))
  }

  /** Keep the particles that are not dead, in order. */
  function Alive(ps: seq<Particle>): (r: seq<Particle>)
    ensures forall p :: p in r <==> p in ps && !IsDead(p)
    ensures |r| <= |ps|
    decreases |ps|
  {
    if ps == [] then []
    else (if IsDead(ps[0]) then [] else [ps[0]]) + Alive(ps[1..])
  }

  function UpdateParticles(s: SessionState, delta: real): SessionState {
    s.(particles := Alive(StepAll(s.particles, delta)))
  }

  // ------------------------------------------------------------ completion

  predicate TimeUp(t: real, d: Duration) {
    match d
    case Seconds(secs) => t >= secs
    case Forever => false
  }

  /** The level is complete once its time is up with lives remaining. */
  function CheckCompletion(s: SessionState): SessionState {
    if TimeUp(s.levelTimer, s.level.duration) && s.lives > 0 then s.(state := LevelComplete)
    else s
  }

  /** Words per minute: five characters make a word; zero before any time
      has passed. Math.round is rounding half up. */
  function Wpm(correctCount: int, levelTimer: real): (w: int)
    ensures levelTimer == 0.0 ==> w == 0
    ensures levelTimer != 0.0 ==>
      var exact := (correctCount as real / 5.0) / (levelTimer / 60.0);
      w as real - 0.5 <= exact < w as real + 0.5
  {
    if levelTimer == 0.0 then 0
    else ((correctCount as real / 5.0) / (levelTimer / 60.0) + 0.5).Floor
  }

  // ------------------------------------------------------------ the frames

  /** The shared first half of a playing frame: timers, spawn, fall, ground. */
  function PlayingStep(s: SessionState, delta: real, width: real, height: real, d: Draw): SessionState {
    var t := SpawnIfDue(Timers(s, delta), d, width);
    GroundCheck(t.(letters := FallAll(t.letters, delta)), height)
  }

  /** The web engine's frame. Keystrokes are not part of it: they arrive as
      separate key events. Outside Playing the frame does nothing. */
  function WebUpdate(s: SessionState, delta: real, width: real, height: real, d: Draw): SessionState {
    if s.state != Playing then s
    else CheckCompletion(UpdateParticles(PlayingStep(s, delta, width, height, d), delta))
  }

  function WebUpdateCues(s: SessionState, delta: real, width: real, height: real, d: Draw): seq<Cue> {
    if s.state != Playing then []
    else
      var t := SpawnIfDue(Timers(s, delta), d, width);
      var moved := FallAll(t.letters, delta);
      var r := WebUpdate(s, delta, width, height, d);
      GroundCues(s.lives, Lost(moved, height))
        + (if r.state == LevelComplete then [LevelCompleteSfx] else [])
  }

  /** The native engine's playing frame: the keys pressed this frame are
      matched after the ground check, even when that check ended the game. */
  function NativeUpdatePlaying(s: SessionState, delta: real, width: real, height: real, d: Draw,
                               keys: seq<char>, spray: nat -> Spark): SessionState
    requires s.combo >= 0
  {
    var t := PlayingStep(s, delta, width, height, d);
    CheckCompletion(UpdateParticles(TypeAll(t, keys, spray), delta))
  }

  /** The shared part of a playing frame: timers, spawn, fall and ground. */
  lemma PlayingStepEffect(s: SessionState, delta: real, width: real, height: real, d: Draw)
    ensures var t := SpawnIfDue(Timers(s, delta), d, width);
      var r := PlayingStep(s, delta, width, height, d);
      && r.lives == s.lives - Lost(FallAll(t.letters, delta), height)
      && r.levelTimer == s.levelTimer + delta
      && (r.state == GameOver <==> s.state == GameOver || (r.lives < s.lives && r.lives <= 0))
      && (r.state != GameOver ==> r.state == s.state)
      && r.level == s.level && r.currentLevel == s.currentLevel && r.maxLives == s.maxLives
      && (s.combo >= 0 ==> r.combo >= 0)
      && (Inv(s) ==> Inv(r))
  {
    var t := SpawnIfDue(Timers(s, delta), d, width);
    var m := t.(letters := FallAll(t.letters, delta));
    assert m.level == s.level && m.lives == s.lives && m.state == s.state;
    assert Inv(s) ==> Inv(m);
    GroundCheckEffect(m, height);
  }

  /** A frame loses exactly one life per letter that crossed the ground line,
      and completes the level only when time is up and lives remain. */
  lemma WebUpdateEffect(s: SessionState, delta: real, width: real, height: real, d: Draw)
    requires s.state == Playing
    ensures var r := WebUpdate(s, delta, width, height, d);
      var t := SpawnIfDue(Timers(s, delta), d, width);
      && r.lives == s.lives - Lost(FallAll(t.letters, delta), height)
      && r.levelTimer == s.levelTimer + delta
      && (r.state == LevelComplete <==> TimeUp(r.levelTimer, s.level.duration) && r.lives > 0)
      && (r.state == GameOver <==> r.lives <= 0 && r.lives < s.lives)
      && r.level == s.level && r.currentLevel == s.currentLevel && r.maxLives == s.maxLives
      && (Inv(s) ==> Inv(r))
  {
    PlayingStepEffect(s, delta, width, height, d);
  }

  lemma WebUpdateIdle(s: SessionState, delta: real, width: real, height: real, d: Draw)
    requires s.state != Playing
    ensures WebUpdate(s, delta, width, height, d) == s
    ensures WebUpdateCues(s, delta, width, height, d) == []
  {
  }

  /** The native playing frame keeps the invariant: the per-character maps
      still add up to the hit and miss counts after any number of keys. */
  lemma NativeUpdatePlayingInv(s: SessionState, delta: real, width: real, height: real, d: Draw,
                               keys: seq<char>, spray: nat -> Spark)
    requires Inv(s)
    ensures Inv(NativeUpdatePlaying(s, delta, width, height, d, keys, spray))
    ensures var r := NativeUpdatePlaying(s, delta, width, height, d, keys, spray);
      && r.totalCount == s.totalCount + |keys|
      && r.level == s.level && r.currentLevel == s.currentLevel && r.maxLives == s.maxLives
  {
    var t := PlayingStep(s, delta, width, height, d);
    PlayingStepEffect(s, delta, width, height, d);
    TypeAllInv(t, keys, spray);
  }

  // ------------------------------------------------------------ key routing

  /** What a key does to the game. */
  datatype Action = Start | Type(ch: char) | Advance | ToMenu | Ignore

  /** Apply an action. */
  function Act(cat: Catalogue, s: SessionState, a: Action, spray: nat -> Spark): SessionState
    requires s.combo >= 0
  {
    match a
    case Start => StartGame(s)
    case Type(c) => TypeLetter(s, c, spray)
    case Advance => NextLevel(cat, s)
    case ToMenu => s.(state := Menu)
    case Ignore => s
  }

  lemma ActInv(cat: Catalogue, s: SessionState, a: Action, spray: nat -> Spark)
    requires Inv(s) && s.maxLives >= 0
    ensures Inv(Act(cat, s, a, spray))
  {
    if a.Type? {
      TypeLetterInv(s, a.ch, spray);
    }
  }

  // ------------------------------------------------------- initial state

  /** A new engine: in the menu, on the catalogue's first level, with the
      player's five lives and every counter at zero. */
  function Initial(cat: Catalogue): (s: SessionState)
    ensures s.state == Menu && s.lives == s.maxLives == 5
    ensures s.currentLevel == 0 && s.level == cat.Get(0)
  {
    var player := NewPlayer(400.0, 550.0);
    SessionState(Menu, [], [], player.lives, player.maxLives, 0, 0, 0, 0, 0, cat.Get(0),
                 0.0, 0.0, map[], map[])
  }

  /** A new engine satisfies the invariant. */
  lemma InitialInv(cat: Catalogue)
    ensures Inv(Initial(cat))
  {
  }

  // ------------------------------------------------------ frame plumbing

  /** Keys in the order the native engine polls them. */
  const LetterKeys: seq<char> := "ABCDEFGHIJKLMNOPQRSTUVWXYZ;"

  /** The native engine's key codes: the two acknowledgement keys and the
      character keys. */
  datatype Key = Space | Enter | Char(ch: char)

  /** The characters among `ks` whose keys are down this frame, in order. */
  function KeysDown(ks: seq<char>, pressed: set<Key>): (r: seq<char>)
    ensures |r| <= |ks|
    ensures forall c :: c in r <==> c in ks && Char(c) in pressed
    decreases |ks|
  {
    if ks == [] then []
    else
      var last := ks[|ks| - 1];
      KeysDown(ks[..|ks| - 1], pressed) + (if Char(last) in pressed then [last] else [])
  }

  /** The positions in `ks` of the keys that are down, in increasing order. */
  function PressedAt(ks: seq<char>, pressed: set<Key>): seq<nat>
    decreases |ks|
  {
    if ks == [] then []
    else PressedAt(ks[..|ks| - 1], pressed) + (if Char(ks[|ks| - 1]) in pressed then [|ks| - 1] else [])
  }

  /** The pressed positions lie in `ks`, increase, and are exactly the
      positions whose key is down. */
  lemma {:induction false} PressedAtExact(ks: seq<char>, pressed: set<Key>)
    ensures var idx := PressedAt(ks, pressed);
      && (forall i :: 0 <= i < |idx| ==> idx[i] < |ks|)
      && (forall i, j :: 0 <= i < j < |idx| ==> idx[i] < idx[j])
      && (forall p :: 0 <= p < |ks| ==> (p in idx <==> Char(ks[p]) in pressed))
    decreases |ks|
  {
    if ks != [] {
      var init := ks[..|ks| - 1];
      PressedAtExact(init, pressed);
      assert forall p :: 0 <= p < |init| ==> ks[p] == init[p];
      assert |ks| - 1 !in PressedAt(init, pressed);
    }
  }

  /** The i-th polled character is the key at the i-th pressed position. */
  lemma {:induction false} KeysDownAt(ks: seq<char>, pressed: set<Key>)
    ensures var r := KeysDown(ks, pressed); var idx := PressedAt(ks, pressed);
      && |idx| == |r|
      && (forall i :: 0 <= i < |idx| ==> idx[i] < |ks| && ks[idx[i]] == r[i])
    decreases |ks|
  {
    if ks != [] {
      var init, last := ks[..|ks| - 1], ks[|ks| - 1];
      KeysDownAt(init, pressed);
      var r0, idx0 := KeysDown(init, pressed), PressedAt(init, pressed);
      var r, idx := KeysDown(ks, pressed), PressedAt(ks, pressed);
      if Char(last) in pressed {
        assert r == r0 + [last] && idx == idx0 + [|ks| - 1];
      } else {
        assert r == r0 && idx == idx0;
      }
      forall i | 0 <= i < |idx0|
        ensures idx[i] == idx0[i] && r[i] == r0[i] && ks[idx0[i]] == init[idx0[i]]
      {
      }
    }
  }

  /** The polled characters keep the order of `ks`: the i-th one is the key
      at the i-th pressed position, the positions increase, and they are
      exactly the positions whose key is down. */
  lemma {:induction false} KeysDownInOrder(ks: seq<char>, pressed: set<Key>)
    ensures var r := KeysDown(ks, pressed); var idx := PressedAt(ks, pressed);
      && |idx| == |r|
      && (forall i :: 0 <= i < |idx| ==> idx[i] < |ks| && ks[idx[i]] == r[i])
      && (forall i, j :: 0 <= i < j < |idx| ==> idx[i] < idx[j])
      && (forall p :: 0 <= p < |ks| ==> (p in idx <==> Char(ks[p]) in pressed))
  {
    KeysDownAt(ks, pressed);
    PressedAtExact(ks, pressed);
  }

  /** Typing one more key after a run of keys. */
  lemma {:induction false} TypeAllSnoc(s: SessionState, keys: seq<char>, c: char, spray: nat -> Spark)
    requires s.combo >= 0
    ensures TypeAll(s, keys + [c], spray) == TypeLetter(TypeAll(s, keys, spray), c, spray)
    decreases |keys|
  {
    if keys == [] {
      assert [c][1..] == [];
    } else {
      assert (keys + [c])[1..] == keys[1..] + [c];
      TypeAllSnoc(TypeLetter(s, keys[0], spray), keys[1..], c, spray);
    }
  }

  /** Polling one more key after a run of polled keys. */
  lemma PollSnoc(s: SessionState, ks: seq<char>, ch: char, pressed: set<Key>, spray: nat -> Spark)
    requires s.combo >= 0
    ensures TypeAll(s, KeysDown(ks + [ch], pressed), spray)
         == if Char(ch) in pressed then TypeLetter(TypeAll(s, KeysDown(ks, pressed), spray), ch, spray)
            else TypeAll(s, KeysDown(ks, pressed), spray)
  {
    assert (ks + [ch])[..|ks|] == ks;
    if Char(ch) in pressed {
      assert KeysDown(ks + [ch], pressed) == KeysDown(ks, pressed) + [ch];
      TypeAllSnoc(s, KeysDown(ks, pressed), ch, spray);
    } else {
      assert KeysDown(ks + [ch], pressed) == KeysDown(ks, pressed);
    }
  }

  // ---------------------------------------------------------- key routing

  /** A browser key event: its physical `code` and its `key` value. */
  datatype KeyEvent = KeyEvent(code: string, key: string)

  /** The characters the matcher accepts. */
  predicate IsLetterKey(c: char) {
    'A' <= c <= 'Z' || c == ';'
  }

  /** String.prototype.toUpperCase on one character, as far as the test
      against [A-Z;] can tell: ASCII letters, and the two other characters
      whose capital is an ASCII letter (dotless i and long s). */
  function Upper(c: char): char {
    if 'a' <= c <= 'z' then (c as int - 32) as char
    else if c == '\U{0131}' then 'I'
    else if c == '\U{017F}' then 'S'
    else c
  }

  /** `key.toLowerCase() === k` for a lower-case ASCII letter `k`. */
  predicate KeyIs(key: string, k: char)
    requires 'a' <= k <= 'z'
  {
    key == [k] || key == [(k as int - 32) as char]
  }

  predicate CodeIs(e: KeyEvent, code: string) { e.code == code }

  /** The web engine's key handler: which action a key event triggers in each
      state. */
  function WebRoute(st: GameState, e: KeyEvent): (a: Action)
    ensures st == Menu ==> (a == Start <==> e.code == "Space" || e.code == "Enter")
    ensures st == Menu ==> a == Start || a == Ignore
    ensures st == Playing ==> (a.Type? <==> |e.key| == 1 && IsLetterKey(Upper(e.key[0])))
    ensures st == Playing ==> a.Type? || a == Ignore
    ensures a.Type? ==> IsLetterKey(a.ch)
    ensures st == LevelComplete ==> (a == Advance <==> e.code == "Space" || e.code == "Enter")
    ensures st == GameOver ==> (a == Start <==> e.code == "Space" || KeyIs(e.key, 'r'))
    ensures st == LevelComplete || st == GameOver ==>
      (a == ToMenu <==> a != Advance && a != Start && KeyIs(e.key, 'm'))
    ensures a == Advance ==> st == LevelComplete
  {
    match st
    case Menu =>
      if CodeIs(e, "Space") || CodeIs(e, "Enter") then Start else Ignore
    case Playing =>
      if |e.key| == 1 && IsLetterKey(Upper(e.key[0])) then Type(Upper(e.key[0])) else Ignore
    case LevelComplete =>
      if CodeIs(e, "Space") || CodeIs(e, "Enter") then Advance
      else if KeyIs(e.key, 'm') then ToMenu
      else Ignore
    case GameOver =>
      if CodeIs(e, "Space") || KeyIs(e.key, 'r') then Start
      else if KeyIs(e.key, 'm') then ToMenu
      else Ignore
  }

  /** The native engine's per-state key polling outside Playing. */
  function NativeRoute(st: GameState, pressed: set<Key>): (a: Action)
    ensures st == Menu ==> (a == Start <==> Space in pressed || Enter in pressed)
    ensures st == LevelComplete ==> (a == Advance <==> Space in pressed || Enter in pressed)
    ensures st == GameOver ==> (a == Start <==> Space in pressed || Char('R') in pressed)
    ensures st == LevelComplete || st == GameOver ==>
      (a == ToMenu <==> a != Advance && a != Start && Char('M') in pressed)
    ensures !a.Type?
  {
    match st
    case Menu => if Space in pressed || Enter in pressed then Start else Ignore
    case Playing => Ignore
    case LevelComplete =>
      if Space in pressed || Enter in pressed then Advance
      else if Char('M') in pressed then ToMenu
      else Ignore
    case GameOver =>
      if Space in pressed || Char('R') in pressed then Start
      else if Char('M') in pressed then ToMenu
      else Ignore
  }

  /** A web key event. */
  function WebKeyDown(cat: Catalogue, s: SessionState, e: KeyEvent, spray: nat -> Spark): SessionState
    requires s.combo >= 0
  {
    Act(cat, s, WebRoute(s.state, e), spray)
  }

  function WebKeyDownCues(s: SessionState, e: KeyEvent): seq<Cue>
    requires s.combo >= 0
  {
    var a := WebRoute(s.state, e);
    if a.Type? then TypeLetterCues(s, a.ch) else []
  }

  /** A native frame: the state decides what the frame does. */
  function NativeFrame(cat: Catalogue, s: SessionState, delta: real, width: real, height: real,
                       d: Draw, pressed: set<Key>, spray: nat -> Spark): SessionState
    requires s.combo >= 0
  {
    if s.state == Playing then
      NativeUpdatePlaying(s, delta, width, height, d, KeysDown(LetterKeys, pressed), spray)
    else
      Act(cat, s, NativeRoute(s.state, pressed), spray)
  }

  // ----------------------------------------------------------- consistency

  /** What a running engine keeps: the invariant, five lives at most, and a
      level record that is the catalogue's entry at the current index. */
  ghost predicate Consistent(cat: Catalogue, s: SessionState) {
    && Inv(s)
    && s.maxLives == 5
    && s.currentLevel < cat.Count()
    && s.level == cat.Get(s.currentLevel)
  }

  lemma InitialConsistent(cat: Catalogue)
    ensures Consistent(cat, Initial(cat))
  {
    InitialInv(cat);
  }

  lemma ActConsistent(cat: Catalogue, s: SessionState, a: Action, spray: nat -> Spark)
    requires Consistent(cat, s)
    ensures Consistent(cat, Act(cat, s, a, spray))
  {
    ActInv(cat, s, a, spray);
    if a == Advance {
      NextLevelCapped(cat, s);
    }
  }

  /** Every web key event, every web frame and every native frame keeps the
      engine consistent. */
  lemma WebKeyDownConsistent(cat: Catalogue, s: SessionState, e: KeyEvent, spray: nat -> Spark)
    requires Consistent(cat, s)
    ensures Consistent(cat, WebKeyDown(cat, s, e, spray))
  {
    ActConsistent(cat, s, WebRoute(s.state, e), spray);
  }

  lemma WebUpdateConsistent(cat: Catalogue, s: SessionState, delta: real, width: real, height: real, d: Draw)
    requires Consistent(cat, s)
    ensures Consistent(cat, WebUpdate(s, delta, width, height, d))
  {
    if s.state == Playing {
      WebUpdateEffect(s, delta, width, height, d);
    }
  }

  lemma NativeFrameConsistent(cat: Catalogue, s: SessionState, delta: real, width: real, height: real,
                              d: Draw, pressed: set<Key>, spray: nat -> Spark)
    requires Consistent(cat, s)
    ensures Consistent(cat, NativeFrame(cat, s, delta, width, height, d, pressed, spray))
  {
    if s.state == Playing {
      NativeUpdatePlayingInv(s, delta, width, height, d, KeysDown(LetterKeys, pressed), spray);
    } else {
      ActConsistent(cat, s, NativeRoute(s.state, pressed), spray);
    }
  }
}

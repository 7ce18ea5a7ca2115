/** The level catalogues of the two engines: the five-level table of the web
    engine, and the eight-level table of the native engine with its Endless
    fallback. */
module Levels {

  /** A level lasts a number of seconds, or forever (Endless Mode). */
  datatype Duration = Seconds(secs: real) | Forever

  datatype Level = Level(
    id: string,
    name: string,
    letters: seq<char>,
    fallSpeed: real,   // pixels per second
    spawnRate: real,   // seconds between spawns
    duration: Duration,
    description: string)

  /** The letters every level is built from: the home row first, then the
      upper-row reaches. */
  const HomeRow: seq<char> := ['A', 'S', 'D', 'F', 'J', 'K', 'L', ';']

  /** A level is playable when it can spawn and its timers are positive. */
  predicate Playable(l: Level) {
    && |l.letters| > 0
    && l.fallSpeed > 0.0
    && l.spawnRate > 0.0
    && (l.duration.Seconds? ==> l.duration.secs > 0.0)
  }

  // ---------------------------------------------------------------- web

  /** The web engine's table. */
  const WebLevels: seq<Level> := [
    Level("1-1", "Home Row: F & J", ['F', 'J'], 100.0, 2.0, Seconds(30.0),
          "Place your index fingers on F and J!"),
    Level("1-2", "Home Row: D & K", ['F', 'J', 'D', 'K'], 110.0, 1.8, Seconds(30.0),
          "Add your middle fingers on D and K."),
    Level("1-3", "Home Row: S & L", ['F', 'J', 'D', 'K', 'S', 'L'], 120.0, 1.6, Seconds(30.0),
          "Ring fingers on S and L."),
    Level("1-4", "Full Home Row", HomeRow, 140.0, 1.3, Seconds(60.0),
          "Master the home row!"),
    Level("2-1", "Upper Row: R & U", HomeRow + ['R', 'U'], 150.0, 1.2, Seconds(45.0),
          "Index fingers reach up to R and U.")
  ]

  /** The web engine's lookup: any index past the table gives its last level. */
  function WebLevel(n: nat): (l: Level)
    ensures n < |WebLevels| ==> l == WebLevels[n]
    ensures n >= |WebLevels| ==> l == WebLevels[|WebLevels| - 1]
    ensures Playable(l)
  {
    if n < |WebLevels| then WebLevels[n] else WebLevels[|WebLevels| - 1]
  }

  // ------------------------------------------------------------- native

  /** Number of levels the native engine's progression walks through. */
  function TotalLevels(): nat { 8 }

  /** The native engine's fixed levels. */
  const HomeRowFJ := Level("1-1", "Home Row: F & J", ['F', 'J'], 100.0, 2.0, Seconds(30.0),
                           "Place your index fingers on F and J. Feel the bumps!")
  const HomeRowDK := Level("1-2", "Home Row: D & K", ['F', 'J', 'D', 'K'], 110.0, 1.8, Seconds(30.0),
                           "Add your middle fingers on D and K.")
  const HomeRowSL := Level("1-3", "Home Row: S & L", ['F', 'J', 'D', 'K', 'S', 'L'], 120.0, 1.6, Seconds(30.0),
                           "Ring fingers on S and L.")
  const HomeRowASemicolon := Level("1-4", "Home Row: A & ;", ['F', 'J', 'D', 'K', 'S', 'L', 'A', ';'], 130.0, 1.5,
                                   Seconds(30.0), "Pinkies on A and ;")
  const FullHomeRow := Level("1-5", "Full Home Row", HomeRow, 140.0, 1.3, Seconds(60.0),
                             "Master the home row!")
  const UpperRowRU := Level("2-1", "Upper Row: R & U", HomeRow + ['R', 'U'], 150.0, 1.2, Seconds(45.0),
                            "Index fingers reach up to R and U.")
  const UpperRowEI := Level("2-2", "Upper Row: E & I", HomeRow + ['R', 'U', 'E', 'I'], 160.0, 1.1, Seconds(45.0),
                            "Middle fingers to E and I.")
  const SpeedChallenge := Level("2-3", "Speed Challenge", ['A', 'S', 'D', 'F', 'J', 'K', 'L', 'E', 'I', 'R', 'U'],
                                200.0, 0.9, Seconds(60.0), "All letters you've learned - faster!")

  /** The native engine's lookup: eight fixed levels, then Endless Mode whose
      fall speed grows with the index. */
  function NativeLevel(n: nat): (l: Level)
    ensures Playable(l)
    ensures l.id == "endless" <==> n >= TotalLevels()
    ensures n >= TotalLevels() ==>
      && l.name == "Endless Mode"
      && l.fallSpeed == 150.0 + n as real * 10.0
      && l.spawnRate == 1.0
      && l.duration == Forever
    ensures n < TotalLevels() ==> l.duration.Seconds?
  {
    if n == 0 then HomeRowFJ
    else if n == 1 then HomeRowDK
    else if n == 2 then HomeRowSL
    else if n == 3 then HomeRowASemicolon
    else if n == 4 then FullHomeRow
    else if n == 5 then UpperRowRU
    else if n == 6 then UpperRowEI
    else if n == 7 then SpeedChallenge
    else
      Level("endless", "Endless Mode", HomeRow + ['E', 'I', 'R', 'U'],
            150.0 + n as real * 10.0, 1.0, Forever, "Survive as long as you can!")
  }

  /** The ids of the fixed native levels, in order. */
  lemma NativeIds()
    ensures seq(TotalLevels(), i requires 0 <= i => NativeLevel(i).id)
         == ["1-1", "1-2", "1-3", "1-4", "1-5", "2-1", "2-2", "2-3"]
  {
  }

  /** Over the fixed native levels the game gets strictly harder: faster
      letters, shorter gaps between spawns. */
  lemma {:induction false} NativeHarder(i: nat, j: nat)
    requires i < j < TotalLevels()
    ensures NativeLevel(i).fallSpeed < NativeLevel(j).fallSpeed
    ensures NativeLevel(i).spawnRate > NativeLevel(j).spawnRate
    decreases j - i
  {
    if j > i + 1 {
      NativeHarder(i, j - 1);
      NativeHarder(j - 1, j);
    } else if i == 0 {
    } else if i == 1 {
    } else if i == 2 {
    } else if i == 3 {
    } else if i == 4 {
    } else if i == 5 {
    } else {
    }
  }

  /** Each of the first seven native levels keeps every letter of the one
      before; the Speed Challenge drops ';'. */
  lemma NativeLettersGrow(i: nat)
    requires 0 < i < TotalLevels() - 1
    ensures forall c :: c in NativeLevel(i - 1).letters ==> c in NativeLevel(i).letters
    ensures ';' in NativeLevel(TotalLevels() - 2).letters
    ensures ';' !in NativeLevel(TotalLevels() - 1).letters
  {
  }

  // ---------------------------------------------------------- catalogue

  /** The level table an engine runs on. */
  datatype Catalogue = Web | Native {

    /** How many levels the progression walks through. */
    function Count(): (n: nat)
      ensures n > 0
    {
      match this
      case Web => |WebLevels|
      case Native => TotalLevels()
    }

    /** The level for an index: any index is answered, never an error. */
    function Get(n: nat): (l: Level)
      ensures Playable(l)
      ensures this.Web? ==> l == WebLevel(n)
      ensures this.Native? ==> l == NativeLevel(n)
    {
      match this
      case Web => WebLevel(n)
      case Native => NativeLevel(n)
    }

    /** The index after `n`, capped at the last level of the progression. */
    function Next(n: nat): (m: nat)
      ensures m < Count()
      ensures n + 1 < Count() ==> m == n + 1
      ensures n + 1 >= Count() ==> m == Count() - 1
    {
      if n + 1 >= Count() then Count() - 1 else n + 1
    }
  }

  /** Progression never leaves the fixed tables: every level reached through
      `Next` is a real catalogue entry (never the web clamp, never Endless). */
  lemma NextStaysInTable(c: Catalogue, n: nat)
    ensures c.Web? ==> c.Get(c.Next(n)) == WebLevels[c.Next(n)]
    ensures c.Native? ==> c.Get(c.Next(n)).id != "endless"
  {
  }
}

/** The typing coach: it loads a language model in the background and, when
    it is ready, asks it for feedback on a session; otherwise it answers with
    a fixed template picked by accuracy. The model and its loader are
    outside this model: loading is an outcome passed in (it worked or it
    threw), and a generation is a reply text or a failure. */
module Coach {
  import opened Wrappers
  import opened Config

  // ------------------------------------------------------- loading state

  /** The coach's flags; `engine` says whether a loaded engine is held. */
  datatype CoachState = CoachState(mode: AIMode, model: GemmaModel, ready: bool, loading: bool, engine: bool)

  /** A new coach: nothing loaded, E4B unless a model is named. */
  function NewCoach(mode: AIMode, model: Option<GemmaModel>): (c: CoachState)
    ensures c.mode == mode && !c.ready && !c.loading && !c.engine
    ensures model.None? ==> c.model == Gemma3nE4B
    ensures model.Some? ==> c.model == model.value
  {
    CoachState(mode, model.GetOr(Gemma3nE4B), false, false, false)
  }

  /** `init` goes ahead only when not ready, not already loading and not
      disabled. */
  predicate CanStart(c: CoachState) {
    !c.ready && !c.loading && c.mode != Disabled
  }

  /** The part of `init` before the loader is awaited. */
  function Begin(c: CoachState): CoachState {
    if CanStart(c) then c.(loading := true) else c
  }

  /** The part of `init` after the loader settles: an engine and the ready
      flag on success, only the loading flag cleared on failure. */
  function Settle(c: CoachState, loaded: bool): CoachState {
    if loaded then c.(engine := true, ready := true, loading := false)
    else c.(loading := false)
  }

  /** A whole `init` whose loader does not overlap another call. */
  function InitState(c: CoachState, loaded: bool): CoachState {
    if CanStart(c) then Settle(Begin(c), loaded) else c
  }

  /** `changeModel`: refused (it throws) outside MediaPipe mode; otherwise
      forget the engine, switch the model and load again. */
  function ChangeModelState(c: CoachState, m: GemmaModel, loaded: bool): CoachState {
    if c.mode != MediaPipe then c
    else InitState(c.(ready := false, loading := false, engine := false, model := m), loaded)
  }

  /** Ready means an engine is held and the coach is not disabled. */
  predicate Sound(c: CoachState) {
    c.ready ==> c.engine && c.mode != Disabled
  }

  /** `init` is a no-op when ready, loading or disabled. */
  lemma InitSkips(c: CoachState, loaded: bool)
    requires c.ready || c.loading || c.mode == Disabled
    ensures InitState(c, loaded) == c
  {
  }

  /** When `init` runs, success leaves it ready and not loading, failure
      leaves it neither; mode and model stay. */
  lemma InitOutcome(c: CoachState, loaded: bool)
    requires CanStart(c)
    ensures var r := InitState(c, loaded);
      r.mode == c.mode && r.model == c.model && !r.loading &&
      (r.ready <==> loaded) && (loaded ==> r.engine) && (!loaded ==> r.engine == c.engine)
  {
  }

  /** While the loader runs, a second `init` changes nothing. */
  lemma BeginBlocks(c: CoachState, loaded: bool)
    requires CanStart(c)
    ensures Begin(c).loading && !Begin(c).ready
    ensures InitState(Begin(c), loaded) == Begin(c)
  {
  }

  /** `changeModel` throws, changing nothing, unless in MediaPipe mode; in
      MediaPipe mode the new model is set and the coach is ready exactly
      when the load worked. */
  lemma ChangeModelOutcome(c: CoachState, m: GemmaModel, loaded: bool)
    ensures var r := ChangeModelState(c, m, loaded);
      (c.mode != MediaPipe ==> r == c) &&
      (c.mode == MediaPipe ==> r.model == m && r.mode == MediaPipe && !r.loading &&
                               (r.ready <==> loaded) && (r.engine <==> loaded))
  {
  }

  /** A new coach is sound, and every step keeps it so. */
  lemma SoundKept(c: CoachState, m: GemmaModel, loaded: bool)
    requires Sound(c)
    ensures Sound(Begin(c)) && Sound(InitState(c, loaded)) && Sound(ChangeModelState(c, m, loaded))
    ensures c.mode != Disabled ==> Sound(Settle(c, loaded))
  {
  }

  lemma NewCoachSound(mode: AIMode, model: Option<GemmaModel>)
    ensures Sound(NewCoach(mode, model))
  {
  }

  // ------------------------------------------------------------ fallback

  /** The session numbers as they appear in a template: the letter count,
      the speed to one decimal, and the accuracy. */
  datatype Rendered = Rendered(total: string, wpm: string, accuracy: string)

  /** The fixed text of the five templates, around the session numbers. */
  const Great := "Great session! You typed "
  const GreatMid := " letters at "
  const GreatEnd := " WPM. Keep practicing those home row keys!"
  const Nice := "Nice work! Your accuracy of "
  const NiceEnd := "% is solid. Focus on building consistent speed next."
  const Improving := "You're improving! "
  const ImprovingEnd := " WPM is progress. Remember to keep your fingers on the home row - F and J!"
  const Excellent := "Excellent effort! With "
  const ExcellentEnd := "% accuracy, you're building good habits. Speed will come naturally."
  const Strong := "Strong performance! "
  const StrongMid := " letters typed with "
  const StrongEnd := "% accuracy. Try to maintain this consistency!"

  function Templates(r: Rendered): (ts: seq<string>)
    ensures |ts| == 5
  {
    [ Great + r.total + GreatMid + r.wpm + GreatEnd,
      Nice + r.accuracy + NiceEnd,
      Improving + r.wpm + ImprovingEnd,
      Excellent + r.accuracy + ExcellentEnd,
      Strong + r.total + StrongMid + r.accuracy + StrongEnd ]
  }

  /** The template picked by accuracy. */
  function TemplateIndex(accuracy: real): (i: nat)
    ensures i < 4
  {
    if accuracy >= 95.0 then 0 else if accuracy >= 90.0 then 1 else if accuracy >= 80.0 then 2 else 3
  }

  /** `templates[index] || templates[last]`. */
  function Fallback(accuracy: real, r: Rendered): string {
    var ts := Templates(r);
    var t := ts[TemplateIndex(accuracy)];
    if t != "" then t else ts[4]
  }

  /** The thresholds: 95 and up picks the first template, 90 up to 95 the
      second, 80 up to 90 the third, anything lower the fourth; the fifth
      is never picked, since no template is empty. */
  lemma FallbackChoice(accuracy: real, r: Rendered)
    ensures var ts := Templates(r);
      Fallback(accuracy, r) == ts[TemplateIndex(accuracy)] &&
      (TemplateIndex(accuracy) == 0 <==> accuracy >= 95.0) &&
      (TemplateIndex(accuracy) == 1 <==> 90.0 <= accuracy < 95.0) &&
      (TemplateIndex(accuracy) == 2 <==> 80.0 <= accuracy < 90.0) &&
      (TemplateIndex(accuracy) == 3 <==> accuracy < 80.0)
  {
    var ts := Templates(r);
    assert |ts[TemplateIndex(accuracy)]| > 0;
  }

  // ------------------------------------------------------------ clean-up

  const EndTag := "<end_of_turn>"
  const StartTag := "<start_of_turn>"
  const Bold := "**"

  /** What JavaScript's `trim` removes: white space and line terminators. */
  predicate IsSpace(ch: char) {
    ch == ' ' || ch == '\t' || ch == '\n' || ch == '\r' || ch == '\U{B}' || ch == '\U{C}' ||
    ch == '\U{A0}' || ch == '\U{1680}' || ('\U{2000}' <= ch <= '\U{200A}') ||
    ch == '\U{2028}' || ch == '\U{2029}' || ch == '\U{202F}' || ch == '\U{205F}' ||
    ch == '\U{3000}' || ch == '\U{FEFF}'
  }

  function TrimStart(s: string): (r: string)
    ensures |r| <= |s| && r == s[|s| - |r|..]
    ensures r == [] || !IsSpace(r[0])
    decreases |s|
  {
    if s != [] && IsSpace(s[0]) then TrimStart(s[1..]) else s
  }

  function TrimEnd(s: string): (r: string)
    ensures |r| <= |s| && r == s[..|r|]
    ensures r == [] || !IsSpace(r[|r| - 1])
    decreases |s|
  {
    if s != [] && IsSpace(s[|s| - 1]) then TrimEnd(s[..|s| - 1]) else s
  }

  function Trim(s: string): string {
    TrimEnd(TrimStart(s))
  }

  /** `s.replace(/p/g, '')` for a literal `p`: remove every occurrence,
      scanning left to right without overlaps. */
  function RemoveAll(s: string, p: string): string
    requires p != []
    decreases |s|
  {
    if |s| < |p| then s
    else if s[..|p|] == p then RemoveAll(s[|p|..], p)
    else [s[0]] + RemoveAll(s[1..], p)
  }

  /** One sentence ends at one of these. */
  predicate IsStop(ch: char) {
    ch == '.' || ch == '!' || ch == '?'
  }

  /** From `i`, the end of the run of characters that are (or are not) stops. */
  function RunEnd(s: string, i: nat, stop: bool): (j: nat)
    requires i <= |s|
    ensures i <= j <= |s|
    ensures forall k :: i <= k < j ==> IsStop(s[k]) == stop
    ensures j == |s| || IsStop(s[j]) != stop
    decreases |s| - i
  {
    if i == |s| || IsStop(s[i]) != stop then i else RunEnd(s, i + 1, stop)
  }

  /** `s.match(/[^.!?]+[.!?]+/g)`: the sentences, each a run of other
      characters followed by a run of stops. Stops with nothing before them
      and a tail without a stop are not part of any sentence. */
  function Sentences(s: string): seq<string>
    decreases |s|
  {
    if s == [] then []
    else if IsStop(s[0]) then Sentences(s[1..])
    else
      var j := RunEnd(s, 0, false);
      if j == |s| then []
      else
        var k := RunEnd(s, j, true);
        [s[..k]] + Sentences(s[k..])
  }

  /** `parts.join(sep)`. */
  function Join(parts: seq<string>, sep: string): string
    decreases |parts|
  {
    if parts == [] then ""
    else if |parts| == 1 then parts[0]
    else parts[0] + sep + Join(parts[1..], sep)
  }

  /** The template markers and bold markers removed from a trimmed reply. */
  function Strip(response: string): string {
    RemoveAll(RemoveAll(RemoveAll(Trim(response), EndTag), StartTag), Bold)
  }

  /** The sentences of the stripped reply, or the whole of it when it has none. */
  function Pieces(c: string): (ps: seq<string>)
    ensures ps != []
  {
    var found := Sentences(c);
    if found == [] then [c] else found
  }

  /** `slice(0, 3)`. */
  function FirstThree(ps: seq<string>): (r: seq<string>)
    ensures |r| <= 3 && |r| <= |ps| && r == ps[..|r|]
    ensures ps != [] ==> r != []
  {
    ps[..if |ps| < 3 then |ps| else 3]
  }

  /** The first three pieces, joined by spaces and trimmed. */
  function Limited(c: string): string {
    Trim(Join(FirstThree(Pieces(c)), " "))
  }

  /** `substring(0, 200)`. */
  function Cut(c: string): (r: string)
    ensures |r| <= 200 && |r| <= |c| && r == c[..|r|]
  {
    c[..if |c| < 200 then |c| else 200]
  }

  /** What is shown of a stripped reply: at most its first three
      sentences, or, if that leaves nothing, its first 200 characters. */
  function Shown(c: string): string {
    if Limited(c) != "" then Limited(c) else Cut(c)
  }

  /** The clean-up of a generated reply. */
  function Clean(response: string): string {
    Shown(Strip(response))
  }

  /** No two consecutive asterisks. */
  predicate NoBold(s: string) {
    forall i :: 0 <= i < |s| - 1 ==> !(s[i] == '*' && s[i + 1] == '*')
  }

  lemma RemoveKeepsHead(t: string)
    requires t != [] && t[0] != '*'
    ensures RemoveAll(t, Bold) != [] && RemoveAll(t, Bold)[0] == t[0]
  {
  }

  /** Removing "**" leaves no "**": an asterisk that survives is followed
      by a character that is not one. */
  lemma {:induction false} RemoveBold(s: string)
    ensures NoBold(RemoveAll(s, Bold))
    decreases |s|
  {
    if |s| < 2 {
    } else if s[..2] == Bold {
      RemoveBold(s[2..]);
    } else {
      var rest := RemoveAll(s[1..], Bold);
      RemoveBold(s[1..]);
      if s[0] == '*' {
        assert s[1] != '*';
        RemoveKeepsHead(s[1..]);
      }
      var r := [s[0]] + rest;
      forall i | 0 <= i < |r| - 1
        ensures !(r[i] == '*' && r[i + 1] == '*')
      {
        if i == 0 {
          assert r[0] == s[0] && r[1] == rest[0];
        } else {
          assert r[i] == rest[i - 1] && r[i + 1] == rest[i];
        }
      }
    }
  }

  lemma SliceNoBold(s: string, a: nat, b: nat)
    requires NoBold(s) && a <= b <= |s|
    ensures NoBold(s[a..b])
  {
    forall i | 0 <= i < b - a - 1
      ensures !(s[a..b][i] == '*' && s[a..b][i + 1] == '*')
    {
      assert s[a..b][i] == s[a + i] && s[a..b][i + 1] == s[a + i + 1];
    }
  }

  lemma TrimNoBold(s: string)
    requires NoBold(s)
    ensures NoBold(Trim(s))
  {
    var t := TrimStart(s);
    SliceNoBold(s, |s| - |t|, |s|);
    SliceNoBold(t, 0, |TrimEnd(t)|);
  }

  /** Every sentence is a non-empty piece of the text that ends with a stop. */
  lemma {:induction false} SentencesShape(s: string)
    ensures forall p :: p in Sentences(s) ==> p != [] && IsStop(p[|p| - 1])
    ensures NoBold(s) ==> forall p :: p in Sentences(s) ==> NoBold(p)
    decreases |s|
  {
    if s == [] {
    } else if IsStop(s[0]) {
      SentencesShape(s[1..]);
      if NoBold(s) {
        SliceNoBold(s, 1, |s|);
      }
    } else {
      var j := RunEnd(s, 0, false);
      if j < |s| {
        var k := RunEnd(s, j, true);
        SentencesShape(s[k..]);
        if NoBold(s) {
          SliceNoBold(s, 0, k);
          SliceNoBold(s, k, |s|);
        }
      }
    }
  }

  lemma ConcatNoBold(a: string, b: string)
    requires NoBold(a) && NoBold(b)
    requires a == [] || b == [] || a[|a| - 1] != '*' || b[0] != '*'
    ensures NoBold(a + b)
  {
    var r := a + b;
    forall i | 0 <= i < |r| - 1
      ensures !(r[i] == '*' && r[i + 1] == '*')
    {
      if i + 1 < |a| {
        assert r[i] == a[i] && r[i + 1] == a[i + 1];
      } else if i >= |a| {
        assert r[i] == b[i - |a|] && r[i + 1] == b[i + 1 - |a|];
      } else {
        assert r[i] == a[|a| - 1] && r[i + 1] == b[0];
      }
    }
  }

  lemma {:induction false} JoinNoBold(parts: seq<string>)
    requires forall p :: p in parts ==> NoBold(p)
    ensures NoBold(Join(parts, " "))
    decreases |parts|
  {
    if |parts| > 1 {
      JoinNoBold(parts[1..]);
      ConcatNoBold(parts[0], " ");
      ConcatNoBold(parts[0] + " ", Join(parts[1..], " "));
    }
  }

  lemma LimitedNoBold(c: string)
    requires NoBold(c)
    ensures NoBold(Limited(c))
  {
    SentencesShape(c);
    var ps := FirstThree(Pieces(c));
    assert forall p :: p in ps ==> p in Pieces(c);
    JoinNoBold(ps);
    TrimNoBold(Join(ps, " "));
  }

  /** The shown reply never holds "**". */
  lemma CleanNoBold(response: string)
    ensures NoBold(Clean(response))
  {
    var c := Strip(response);
    RemoveBold(RemoveAll(RemoveAll(Trim(response), EndTag), StartTag));
    LimitedNoBold(c);
    SliceNoBold(c, 0, |Cut(c)|);
  }

  /** The last piece of a join is its end. */
  lemma {:induction false} JoinEnds(parts: seq<string>)
    requires parts != [] && parts[|parts| - 1] != []
    ensures var j := Join(parts, " ");
      j != [] && j[|j| - 1] == parts[|parts| - 1][|parts[|parts| - 1]| - 1]
    decreases |parts|
  {
    if |parts| > 1 {
      JoinEnds(parts[1..]);
    }
  }

  /** Trimming keeps a last character that is not white space. */
  lemma {:induction false} TrimKeepsEnd(s: string)
    requires s != [] && !IsSpace(s[|s| - 1])
    ensures Trim(s) != [] && Trim(s)[|Trim(s)| - 1] == s[|s| - 1]
    decreases |s|
  {
    if IsSpace(s[0]) {
      TrimKeepsEnd(s[1..]);
    }
  }

  /** When the stripped reply has a sentence, the shown reply is not empty
      and ends with a stop. */
  lemma ShownEndsSentence(c: string)
    requires Sentences(c) != []
    ensures var r := Shown(c); r != [] && IsStop(r[|r| - 1])
  {
    var found := Sentences(c);
    SentencesShape(c);
    var taken := FirstThree(found);
    assert Pieces(c) == found;
    assert taken[|taken| - 1] in found;
    JoinEnds(taken);
    TrimKeepsEnd(Join(taken, " "));
    assert Limited(c) == Trim(Join(taken, " ")) != [];
  }

  /** Without a sentence the whole stripped reply, trimmed, is shown; only
      when that is blank are the first 200 characters shown instead. */
  lemma ShownWithoutSentence(c: string)
    requires Sentences(c) == []
    ensures Shown(c) == if Trim(c) != "" then Trim(c) else c[..if |c| < 200 then |c| else 200]
  {
  }
  // ------------------------------------------------------------ feedback

  /** What the engine did with a prompt: replied with a text, or threw. */
  datatype Generation = Reply(text: string) | Threw

  /** `getSessionFeedback`: the template unless a ready engine in MediaPipe
      or WebLLM mode replied; a MediaPipe reply is cleaned, a WebLLM reply
      is shown as it is. */
  function Feedback(c: CoachState, accuracy: real, r: Rendered, g: Generation): string {
    if !c.ready || !c.engine || g.Threw? then Fallback(accuracy, r)
    else if c.mode == MediaPipe then Clean(g.text)
    else if c.mode == WebLLM then g.text
    else Fallback(accuracy, r)
  }

  /** The template is the answer exactly when no usable reply exists. */
  lemma FeedbackFallsBack(c: CoachState, accuracy: real, r: Rendered, g: Generation)
    requires Sound(c)
    ensures !c.ready || g.Threw? ==> Feedback(c, accuracy, r, g) == Fallback(accuracy, r)
    ensures c.ready && g.Reply? ==>
      Feedback(c, accuracy, r, g) == if c.mode == MediaPipe then Clean(g.text) else g.text
    ensures c.ready && g.Reply? && c.mode == MediaPipe ==> NoBold(Feedback(c, accuracy, r, g))
  {
    if c.ready && g.Reply? && c.mode == MediaPipe {
      CleanNoBold(g.text);
    }
  }

  // -------------------------------------------------------------- object

  class AICoach {
    var mode: AIMode
    var gemmaModel: GemmaModel
    var isReady: bool
    var isLoading: bool
    /** Whether a loaded engine is held. */
    var hasEngine: bool

    function Snapshot(): CoachState
      reads this
    {
      CoachState(mode, gemmaModel, isReady, isLoading, hasEngine)
    }

    constructor (m: AIMode, model: Option<GemmaModel>)
      ensures Snapshot() == NewCoach(m, model)
    {
      mode := m;
      gemmaModel := model.GetOr(Gemma3nE4B);
      isReady, isLoading, hasEngine := false, false, false;
    }

    /** `init` up to the loader: the answer says whether it went ahead. */
    method StartInit() returns (started: bool)
      modifies this
      ensures started == CanStart(old(Snapshot()))
      ensures Snapshot() == Begin(old(Snapshot()))
    {
      if isReady || isLoading || mode == Disabled {
        return false;
      }
      isLoading := true;
      return true;
    }

    /** `init` after the loader settled; the answer says whether it threw. */
    method FinishInit(loaded: bool) returns (thrown: bool)
      modifies this
      requires mode != Disabled
      ensures thrown == !loaded
      ensures Snapshot() == Settle(old(Snapshot()), loaded)
    {
      if !loaded {
        isLoading := false;
        return true;
      }
      hasEngine := true;
      isReady := true;
      isLoading := false;
      return false;
    }

    method Init(loaded: bool) returns (thrown: bool)
      modifies this
      ensures thrown == (CanStart(old(Snapshot())) && !loaded)
      ensures Snapshot() == InitState(old(Snapshot()), loaded)
    {
      var started := StartInit();
      if started {
        thrown := FinishInit(loaded);
      } else {
        thrown := false;
      }
    }

    method ChangeModel(m: GemmaModel, loaded: bool) returns (thrown: bool)
      modifies this
      ensures thrown == (old(mode) != MediaPipe || !loaded)
      ensures Snapshot() == ChangeModelState(old(Snapshot()), m, loaded)
    {
      if mode != MediaPipe {
        return true;
      }
      isReady := false;
      isLoading := false;
      hasEngine := false;
      gemmaModel := m;
      thrown := Init(loaded);
    }

    method GetSessionFeedback(accuracy: real, r: Rendered, g: Generation) returns (text: string)
      ensures !isReady || !hasEngine || g.Threw? ==> text == Fallback(accuracy, r)
      ensures isReady && hasEngine && g.Reply? && mode == MediaPipe ==> text == Clean(g.text) && NoBold(text)
      ensures isReady && hasEngine && g.Reply? && mode == WebLLM ==> text == g.text
      ensures text == Feedback(Snapshot(), accuracy, r, g)
    {
      if !isReady || !hasEngine {
        return Fallback(accuracy, r);
      }
      match g {
        case Threw =>
          text := Fallback(accuracy, r);
        case Reply(t) =>
          if mode == MediaPipe {
            text := Clean(t);
            CleanNoBold(t);
          } else if mode == WebLLM {
            text := t;
          } else {
            text := Fallback(accuracy, r);
          }
      }
    }

    method GetModelInfo() returns (info: ModelInfo)
      ensures info == Info(gemmaModel)
    {
      info := Info(gemmaModel);
    }

    method GetCurrentModel() returns (model: GemmaModel)
      ensures model == gemmaModel
    {
      model := gemmaModel;
    }

    method GetMode() returns (m: AIMode)
      ensures m == mode
    {
      m := mode;
    }
  }
}

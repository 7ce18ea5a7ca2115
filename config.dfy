/** Game settings: which AI back end gives feedback, which Gemma model it
    loads, and three presentation switches. Settings live in one browser
    storage entry as JSON text; here that entry is a value: missing, text
    that does not parse, or the fields it parsed to. */
module Config {
  import opened Wrappers

  datatype AIMode = MediaPipe | WebLLM | Disabled

  datatype GemmaModel = Gemma3n270M | Gemma3nE2B | Gemma3nE4B | Gemma3_4B | Gemma3_12B

  datatype ModelInfo = ModelInfo(name: string, size: string, description: string, url: string,
                                 multimodal: bool, recommended: Option<bool>)

  datatype GameConfig = GameConfig(aiMode: AIMode, gemmaModel: GemmaModel,
                                   sound: bool, particles: bool, screenShake: bool)

  /** The fields a save supplies; absent ones are left as they are. */
  datatype Patch = Patch(aiMode: Option<AIMode>, gemmaModel: Option<GemmaModel>,
                         sound: Option<bool>, particles: Option<bool>, screenShake: Option<bool>)

  /** An AI mode as found in stored settings: a current one, or the retired
      name 'gemma3'. */
  datatype StoredMode = Current(mode: AIMode) | Gemma3

  /** The fields found in stored settings. */
  datatype Parsed = Parsed(aiMode: Option<StoredMode>, gemmaModel: Option<GemmaModel>,
                           sound: Option<bool>, particles: Option<bool>, screenShake: Option<bool>)

  /** The storage entry: absent (or empty), unparseable, or parsed. */
  datatype Saved = Missing | Malformed | Json(fields: Parsed)

  /** The model table, one entry per model. */
  const Info270M := ModelInfo("Gemma 3n 270M", "~276MB", "Ultra-fast, smallest model - great for quick feedback",
                              "/models/gemma3-270m-it-q8-web.task", false, None)
  const InfoE2B := ModelInfo("Gemma 3n E2B", "~1.5GB", "Good balance of speed and quality (multimodal: text + images + audio)",
                             "/models/gemma-3n-E2B-it-int4-Web.litertlm", true, None)
  const InfoE4B := ModelInfo("Gemma 3n E4B", "~3GB", "Best all-around model (multimodal: text + images + audio)",
                             "/models/gemma-3n-e4b-it-int4-Web.litertlm", true, Some(true))
  const Info4B := ModelInfo("Gemma 3 4B", "~3GB", "Alternative 4B variant - text only",
                            "/models/Gemma3-4B-IT-int4-Web.litertlm", false, None)
  const Info12B := ModelInfo("Gemma 3 12B", "~8GB", "Highest quality, slower - for advanced users only",
                             "/models/Gemma3-12B-IT-int4-Web.litertlm", false, None)

  function Info(m: GemmaModel): ModelInfo {
    match m
    case Gemma3n270M => Info270M
    case Gemma3nE2B => InfoE2B
    case Gemma3nE4B => InfoE4B
    case Gemma3_4B => Info4B
    case Gemma3_12B => Info12B
  }

  /** Only the two 3n E-models take images and audio, and exactly one
      model is marked recommended. */
  lemma InfoTable(m: GemmaModel)
    ensures Info(m).multimodal <==> m == Gemma3nE2B || m == Gemma3nE4B
    ensures Info(m).recommended.Some? <==> m == Gemma3nE4B
  {
    match m {
      case Gemma3n270M =>
      case Gemma3nE2B =>
      case Gemma3nE4B =>
      case Gemma3_4B =>
      case Gemma3_12B =>
    }
  }

  const Default := GameConfig(MediaPipe, Gemma3n270M, true, true, true)

  /** `{ ...c, ...p }`: every field the patch supplies replaces the current one. */
  function Merge(c: GameConfig, p: Patch): (r: GameConfig)
    ensures p.aiMode.Some? ==> r.aiMode == p.aiMode.value
    ensures p.aiMode.None? ==> r.aiMode == c.aiMode
    ensures p.gemmaModel.Some? ==> r.gemmaModel == p.gemmaModel.value
    ensures p.gemmaModel.None? ==> r.gemmaModel == c.gemmaModel
    ensures p.sound.Some? ==> r.sound == p.sound.value
    ensures p.sound.None? ==> r.sound == c.sound
    ensures p.particles.Some? ==> r.particles == p.particles.value
    ensures p.particles.None? ==> r.particles == c.particles
    ensures p.screenShake.Some? ==> r.screenShake == p.screenShake.value
    ensures p.screenShake.None? ==> r.screenShake == c.screenShake
  {
    GameConfig(p.aiMode.GetOr(c.aiMode), p.gemmaModel.GetOr(c.gemmaModel), p.sound.GetOr(c.sound),
               p.particles.GetOr(c.particles), p.screenShake.GetOr(c.screenShake))
  }

  /** Saving the same fields twice is saving them once, and an empty save
      changes nothing. */
  lemma MergeIdempotent(c: GameConfig, p: Patch)
    ensures Merge(Merge(c, p), p) == Merge(c, p)
    ensures Merge(c, Patch(None, None, None, None, None)) == c
  {
  }

  /** The stored fields with the retired mode name replaced by 'mediapipe'. */
  function Migrate(f: Parsed): (p: Patch)
    ensures f.aiMode == Some(Gemma3) ==> p.aiMode == Some(MediaPipe)
    ensures f.aiMode.None? <==> p.aiMode.None?
    ensures forall m :: f.aiMode == Some(Current(m)) ==> p.aiMode == Some(m)
    ensures p.gemmaModel == f.gemmaModel && p.sound == f.sound
    ensures p.particles == f.particles && p.screenShake == f.screenShake
  {
    var mode := match f.aiMode
      case None => None
      case Some(Gemma3) => Some(MediaPipe)
      case Some(Current(m)) => Some(m);
    Patch(mode, f.gemmaModel, f.sound, f.particles, f.screenShake)
  }

  /** `loadConfig`: the defaults, overridden by whatever the entry holds. */
  function Load(s: Saved): GameConfig {
    match s
    case Missing => Default
    case Malformed => Default
    case Json(f) => Merge(Default, Migrate(f))
  }

  /** What `saveConfig` writes: every field of the config. */
  function Persist(c: GameConfig): (s: Saved)
    ensures s.Json? && s.fields.aiMode.Some? && s.fields.gemmaModel.Some?
  {
    Json(Parsed(Some(Current(c.aiMode)), Some(c.gemmaModel), Some(c.sound), Some(c.particles),
                Some(c.screenShake)))
  }

  /** Nothing stored, or nothing readable, loads the defaults: MediaPipe,
      the 270M model, and every switch on. */
  lemma LoadDefaults(s: Saved)
    requires !s.Json?
    ensures Load(s) == Default
    ensures Load(s).aiMode == MediaPipe && Load(s).gemmaModel == Gemma3n270M
    ensures Load(s).sound && Load(s).particles && Load(s).screenShake
  {
  }

  /** Each stored field wins, each missing field keeps its default, and the
      retired mode name loads as MediaPipe. */
  lemma LoadFields(f: Parsed)
    ensures var c := Load(Json(f));
      (f.aiMode == Some(Gemma3) ==> c.aiMode == MediaPipe) &&
      (forall m :: f.aiMode == Some(Current(m)) ==> c.aiMode == m) &&
      (f.aiMode.None? ==> c.aiMode == Default.aiMode) &&
      c.gemmaModel == f.gemmaModel.GetOr(Default.gemmaModel) &&
      c.sound == f.sound.GetOr(Default.sound) &&
      c.particles == f.particles.GetOr(Default.particles) &&
      c.screenShake == f.screenShake.GetOr(Default.screenShake)
  {
  }

  /** What is saved loads back unchanged. */
  lemma SaveLoad(c: GameConfig)
    ensures Load(Persist(c)) == c
  {
  }

  class ConfigManager {
    var config: GameConfig
    /** The storage entry. */
    var stored: Saved

    /** Read the settings once, from the entry `saved`. */
    constructor (saved: Saved)
      ensures config == Load(saved) && stored == saved
    {
      config := Load(saved);
      stored := saved;
    }

    /** Replace the given fields and write the whole config back. */
    method SaveConfig(p: Patch)
      modifies this
      ensures config == Merge(old(config), p)
      ensures stored == Persist(config)
    {
      config := Merge(config, p);
      stored := Persist(config);
    }

    method GetConfig() returns (c: GameConfig)
      ensures c == config
    {
      c := config;
    }

    method SetAIMode(mode: AIMode)
      modifies this
      ensures config == old(config).(aiMode := mode)
      ensures Load(stored) == config
    {
      SaveConfig(Patch(Some(mode), None, None, None, None));
      SaveLoad(config);
    }

    method GetAIMode() returns (mode: AIMode)
      ensures mode == config.aiMode
    {
      mode := config.aiMode;
    }

    method SetGemmaModel(model: GemmaModel)
      modifies this
      ensures config == old(config).(gemmaModel := model)
      ensures Load(stored) == config
    {
      SaveConfig(Patch(None, Some(model), None, None, None));
      SaveLoad(config);
    }

    method GetGemmaModel() returns (model: GemmaModel)
      ensures model == config.gemmaModel
    {
      model := config.gemmaModel;
    }

    method GetModelInfo() returns (info: ModelInfo)
      ensures info == Info(config.gemmaModel)
    {
      info := Info(config.gemmaModel);
    }
  }
}

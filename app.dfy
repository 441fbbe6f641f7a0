/**
 * The application component: the state it holds (script, storyboard,
 * loading flag, error, chat session), the transitions of a file upload and
 * of a storyboard generation run, and the lazily created chat session.
 *
 * The extraction service and the image service are not modelled; a run
 * receives their outcomes as inputs: `extraction` for the scene-extraction
 * call and `outcomes(i)` for the image request of the i-th scene.
 */
module App {
  import opened Types
  import opened Storyboard
  import Panel

  const UploadFirstMessage: string := "Please upload a script first."
  const ProcessingFailedMessage: string := "Failed to process the script. Please try again."
  const ChatModelName: string := "gemini-2.5-flash"

  /** The outcome of the scene-extraction call. */
  datatype Extraction = Extracted(scenes: seq<Scene>) | ExtractionFailed

  /** The component's state apart from the chat session. */
  datatype AppState = AppState(script: string, storyboard: seq<StoryboardItem>, isLoading: bool, error: Option<string>)

  function InitialAppState(): AppState
  {
    AppState("", [], false, None)
  }

  /** A new script replaces the old one and discards its storyboard and error. */
  function Upload(s: AppState, content: string): (t: AppState)
    ensures t.script == content && t.storyboard == [] && t.error == None
    ensures t.isLoading == s.isLoading
  {
    s.(script := content, storyboard := [], error := None)
  }

  /** A run with a script starts: loading, no error, no storyboard. */
  function Started(s: AppState): AppState
  {
    s.(isLoading := true, error := None, storyboard := [])
  }

  /** Extraction succeeded: one loading placeholder per scene is shown. */
  function Pending(s: AppState, scenes: seq<Scene>): AppState
  {
    s.(storyboard := InitialStoryboard(scenes))
  }

  /** All image requests settled: the results are merged into the current storyboard. */
  function Finished(s: AppState, settled: seq<SettledImage>): AppState
  {
    s.(storyboard := Merge(s.storyboard, settled), isLoading := false)
  }

  /** Extraction failed: the error is shown and loading ends. */
  function Aborted(s: AppState): AppState
  {
    s.(error := Some(ProcessingFailedMessage), isLoading := false)
  }

  /** The state a whole generation run leaves behind. */
  function Generate(s: AppState, extraction: Extraction, outcomes: nat -> ImageResult): (t: AppState)
    ensures t.script == s.script
    ensures s.script == "" ==> t == s.(error := Some(UploadFirstMessage))
    ensures s.script != "" ==> !t.isLoading
    ensures s.script != "" && extraction.ExtractionFailed? ==>
      t.storyboard == [] && t.error == Some(ProcessingFailedMessage)
    ensures s.script != "" && extraction.Extracted? ==>
      t.error == None && t.storyboard == FinalStoryboard(extraction.scenes, outcomes)
  {
    if s.script == "" then s.(error := Some(UploadFirstMessage))
    else
      match extraction
      case ExtractionFailed => Aborted(Started(s))
      case Extracted(scenes) => Finished(Pending(Started(s), scenes), Settle(scenes, outcomes))
  }

  /** What the storyboard panel shows for a state. */
  function View(s: AppState): (v: Panel.PanelView)
    ensures v.ErrorView? <==> Panel.Truthy(s.error)
    ensures !Panel.Truthy(s.error) && s.storyboard != [] ==> v.Grid? && |v.cards| == |s.storyboard|
  {
    Panel.Render(s.storyboard, s.isLoading, s.error)
  }

  /**
   * After an upload the panel shows the empty state, or an empty grid while
   * a run is still loading; no earlier storyboard or error remains visible.
   */
  lemma UploadResets(s: AppState, content: string)
    ensures !s.isLoading ==> View(Upload(s, content)) == Panel.EmptyState
    ensures s.isLoading ==> View(Upload(s, content)) == Panel.Grid([])
  {
  }

  /**
   * Generating without a script only sets the validation error; no outcome
   * of either service plays any part.
   */
  lemma EmptyScriptRefused(s: AppState, e1: Extraction, o1: nat -> ImageResult, e2: Extraction, o2: nat -> ImageResult)
    requires s.script == ""
    ensures Generate(s, e1, o1) == s.(error := Some(UploadFirstMessage))
    ensures Generate(s, e1, o1) == Generate(s, e2, o2)
    ensures View(Generate(s, e1, o1)) == Panel.ErrorView(UploadFirstMessage)
  {
  }

  /**
   * Once extraction returned N scenes the panel shows N loading
   * placeholders, in scene order, while the images are requested.
   */
  lemma PendingShowsPlaceholders(s: AppState, scenes: seq<Scene>)
    ensures var p := Pending(Started(s), scenes);
            && p.isLoading && p.error == None && p.script == s.script
            && |p.storyboard| == |scenes|
            && (forall i :: 0 <= i < |scenes| ==> p.storyboard[i] == Placeholder(scenes[i]))
            && View(p) == Panel.Grid(seq(|scenes|, i requires 0 <= i < |scenes| =>
                 Panel.Card(scenes[i].sceneNumber, scenes[i].description, Panel.PlaceholderMedia)))
  {
  }

  /**
   * A failed extraction leaves no storyboard, shows the processing error
   * and ends loading.
   */
  lemma FailedExtractionShowsError(s: AppState, outcomes: nat -> ImageResult)
    requires s.script != ""
    ensures var t := Generate(s, ExtractionFailed, outcomes);
            t == AppState(s.script, [], false, Some(ProcessingFailedMessage))
    ensures View(Generate(s, ExtractionFailed, outcomes)) == Panel.ErrorView(ProcessingFailedMessage)
  {
  }

  /**
   * Once a run with a script ends, the panel never shows the empty grid of
   * a run in progress: it shows an error, the empty state, or one card per
   * extracted scene.
   */
  lemma RunEndsNotLoading(s: AppState, extraction: Extraction, outcomes: nat -> ImageResult)
    requires s.script != ""
    ensures var v := View(Generate(s, extraction, outcomes));
            v != Panel.Grid([])
            && (v.Grid? ==> extraction.Extracted? && |v.cards| == |extraction.scenes|)
            && (v == Panel.EmptyState ==> extraction.Extracted? && extraction.scenes == [])
  {
  }

  /**
   * A run whose scenes have distinct numbers ends with no error, not
   * loading, and one settled item per scene in scene order: each shows its
   * own image, or the error card if its own request failed.
   */
  lemma DistinctRunSettlesEveryScene(s: AppState, scenes: seq<Scene>, outcomes: nat -> ImageResult)
    requires s.script != ""
    requires DistinctSceneNumbers(scenes)
    ensures var t := Generate(s, Extracted(scenes), outcomes);
            && t.script == s.script && !t.isLoading && t.error == None
            && |t.storyboard| == |scenes|
            && forall i :: 0 <= i < |scenes| ==>
                 t.storyboard[i] == StoryboardItem(scenes[i], ImageUrlFor(outcomes(i)), false)
    ensures var t := Generate(s, Extracted(scenes), outcomes);
            forall i :: 0 <= i < |scenes| ==>
              Panel.ItemMedia(t.storyboard[i]) ==
                match outcomes(i)
                case Generated(bytes) => Panel.Image(DataUriPrefix + bytes)
                case GenerationFailed => Panel.ErrorCard
  {
    AllSettledWhenDistinct(scenes, outcomes);
  }

  /**
   * A run whose scenes repeat a scene number leaves the later scene's item
   * loading, and the panel shows it as a placeholder after the run ended.
   */
  lemma DuplicateRunLeavesPlaceholder(s: AppState, scenes: seq<Scene>, outcomes: nat -> ImageResult, j: int, k: int)
    requires s.script != ""
    requires 0 <= j < k < |scenes|
    requires scenes[j].sceneNumber == scenes[k].sceneNumber
    ensures var t := Generate(s, Extracted(scenes), outcomes);
            && !t.isLoading
            && |t.storyboard| == |scenes|
            && t.storyboard[k].isLoading
            && Panel.ItemMedia(t.storyboard[k]) == Panel.PlaceholderMedia
  {
    LaterDuplicateStaysLoading(scenes, outcomes, j, k);
  }

  /** The chat session object; what it does is not modelled. */
  class ChatSession {
    const model: string

    constructor (model: string)
      ensures this.model == model
    {
      this.model := model;
    }
  }

  class StoryboardApp {
    var script: string
    var storyboard: seq<StoryboardItem>
    var isLoading: bool
    var error: Option<string>
    var chat: ChatSession?

    function State(): AppState
      reads this
    {
      AppState(script, storyboard, isLoading, error)
    }

    constructor ()
      ensures State() == InitialAppState() && chat == null
    {
      script, storyboard, isLoading, error := "", [], false, None;
      chat := null;
    }

    method HandleFileUpload(content: string)
      modifies this
      ensures State() == Upload(old(State()), content)
      ensures chat == old(chat)
    {
      script := content;
      storyboard := [];
      error := None;
    }

    method HandleGenerateStoryboard(extraction: Extraction, outcomes: nat -> ImageResult)
      modifies this
      ensures State() == Generate(old(State()), extraction, outcomes)
      ensures chat == old(chat)
    {
      if script == "" {
        error := Some(UploadFirstMessage);
        return;
      }
      isLoading := true;
      error := None;
      storyboard := [];

      match extraction {
        case ExtractionFailed =>
          error := Some(ProcessingFailedMessage);
        case Extracted(scenes) =>
          storyboard := InitialStoryboard(scenes);
          var settled := Settle(scenes, outcomes);
          storyboard := MergeSettled(storyboard, settled);
      }
      isLoading := false;
    }

    /** The chat session, created on first use and returned unchanged afterwards. */
    method GetChat() returns (c: ChatSession)
      modifies this`chat
      ensures old(chat) != null ==> c == old(chat) && chat == old(chat)
      ensures old(chat) == null ==> fresh(c) && c.model == ChatModelName && chat == c
    {
      if chat != null {
        return chat;
      }
      c := new ChatSession(ChatModelName);
      chat := c;
    }
  }
}

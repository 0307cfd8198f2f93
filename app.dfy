/**
 * The session state machine of the application component (App.tsx): its
 * fields mirror the component's state, and each handler is a method that
 * overwrites some of them and, for save, load and reset, the store entry.
 */
module App {
  import opened Types
  import opened Player
  import opened Ledger
  import opened Storage

  const SAVE_KEY := "geminiNarrativeSave"
  const ENTRY_SCENE := "scene_1"
  const DEFAULT_BACKGROUND := "https://picsum.photos/seed/start/1920/1080"
  const GENERATION_ERROR := "Failed to generate story. Please check the API key and try again."
  const LOAD_ERROR := "Failed to load saved game. The file might be corrupted."
  const DEFAULT_ENDING := "The story concludes."

  /** What the story generator hands back: a parsed story, or a failure of any kind. */
  datatype Generated = Generated(data: StoryData) | GenerationFailed

  /** The session's fields, in the order the component declares them. */
  datatype Fields = Fields(
    gameState: GameState,
    story: Option<StoryData>,
    currentSceneId: string,
    error: Option<string>,
    backgroundImage: string,
    relationshipScores: RelationshipScores,
    saveExists: bool,
    lastAutosave: int)

  /** The fields' initial values (before the store is consulted for `saveExists`). */
  const INITIAL := Fields(Start, None, ENTRY_SCENE, None, DEFAULT_BACKGROUND, map[], false, 0)

  /** The screen the component renders, with the values it passes on. */
  datatype Screen =
    | LoadingScreen
    | GameScreen(scene: Option<Scene>, storyTitle: string, relationshipScores: RelationshipScores,
                 characters: seq<Character>, lastAutosave: int)
    | NoScreen
    | EndScreen(endingText: string)
    | StartScreen(saveExists: bool, error: Option<string>)

  /** `story?.scenes[id]`. */
  function SceneAt(story: Option<StoryData>, id: string): Option<Scene> {
    if story.Some? && id in story.value.scenes then Some(story.value.scenes[id]) else None
  }

  /** The generated story after the player fix-up, the only change ever made to it. */
  function WithPlayer(data: StoryData): StoryData {
    data.(characters := EnsurePlayer(data.characters))
  }

  /** A scene's background replaces the current one only when it is non-empty. */
  function NewBackground(current: string, scene: Scene): string {
    if scene.visuals.backgroundImage != "" then scene.visuals.backgroundImage else current
  }

  /** The effect list of a choice; an absent list stands for no effects. */
  function EffectsOf(choice: Choice): seq<RelationshipEffect> {
    match choice.relationshipEffects
    case None => []
    case Some(effects) => effects
  }

  /** `choice.nextSceneId && story?.scenes[choice.nextSceneId]`: a non-empty id that names a scene. */
  predicate Resolves(story: Option<StoryData>, next: Option<string>) {
    next.Some? && next.value != "" && SceneAt(story, next.value).Some?
  }

  /**
   * The text of the end screen: the narration of the scene the session stopped
   * at, or the fixed fallback when that scene is absent or its narration empty.
   */
  function EndingText(story: Option<StoryData>, sceneId: string): (text: string)
    ensures text != ""
    ensures SceneAt(story, sceneId).Some? && SceneAt(story, sceneId).value.narration != "" ==>
      text == SceneAt(story, sceneId).value.narration
    ensures text != DEFAULT_ENDING ==>
      SceneAt(story, sceneId).Some? && text == SceneAt(story, sceneId).value.narration
  {
    match SceneAt(story, sceneId)
    case Some(scene) => if scene.narration != "" then scene.narration else DEFAULT_ENDING
    case None => DEFAULT_ENDING
  }

  class Session {
    var gameState: GameState
    var story: Option<StoryData>
    var currentSceneId: string
    var error: Option<string>
    var backgroundImage: string
    var relationshipScores: RelationshipScores
    var saveExists: bool
    var lastAutosave: int
    /** The durable store; nothing else writes its entry under SAVE_KEY. */
    const store: Store

    function State(): Fields
      reads this
    {
      Fields(gameState, story, currentSceneId, error, backgroundImage, relationshipScores,
             saveExists, lastAutosave)
    }

    /**
     * The session's invariant: a playing session has a story, and `saveExists`
     * is the truthiness of the stored entry, so it answers "is there a save"
     * without reading the store.
     */
    ghost predicate Valid()
      reads this, store
    {
      (gameState == Playing ==> story.Some?) &&
      saveExists == Truthy(Lookup(store.entries, SAVE_KEY))
    }

    /** The scores hold exactly the non-player names of the story's roster. */
    ghost predicate LedgerMatchesRoster()
      reads this
    {
      story.Some? ==> relationshipScores.Keys == NonPlayerNames(story.value.characters)
    }

    /** The guard of a manual save (the score object itself is always truthy). */
    predicate CanSave()
      reads this
    {
      story.Some? && currentSceneId != "" && backgroundImage != ""
    }

    /** The value a save writes. */
    function Snapshot(): SessionState
      reads this
      requires story.Some?
    {
      SessionState(story.value, currentSceneId, relationshipScores, backgroundImage)
    }

    /** The initial state, followed by the mount effect that looks for an existing save. */
    constructor (store: Store)
      ensures this.store == store
      ensures State() == INITIAL.(saveExists := Truthy(Lookup(store.entries, SAVE_KEY)))
      ensures Valid()
    {
      this.store := store;
      gameState := Start;
      story := None;
      currentSceneId := ENTRY_SCENE;
      error := None;
      backgroundImage := DEFAULT_BACKGROUND;
      relationshipScores := map[];
      lastAutosave := 0;
      var saved := store.GetItem(SAVE_KEY);
      saveExists := Truthy(saved);
    }

    /** The start of `handleStartGame`, before the generator answers. */
    method BeginStart()
      requires Valid()
      modifies this
      ensures Valid()
      ensures State() == old(State()).(gameState := Loading, error := None)
    {
      gameState := Loading;
      error := None;
    }

    /**
     * The rest of `handleStartGame`, once the generator has answered. A story
     * without "scene_1" makes the background lookup throw inside the try
     * block, after the story, scene id and scores have been set.
     */
    method CompleteStart(outcome: Generated)
      requires Valid()
      modifies this
      ensures Valid()
      ensures store.entries == old(store.entries)
      ensures outcome.GenerationFailed? ==>
        State() == old(State()).(error := Some(GENERATION_ERROR), gameState := Start)
      ensures outcome.Generated? ==>
        var data := WithPlayer(outcome.data);
        && story == Some(data)
        && HasPlayer(data.characters)
        && currentSceneId == ENTRY_SCENE
        && SeededFor(relationshipScores, data.characters)
        && LedgerMatchesRoster()
        && saveExists == old(saveExists) && lastAutosave == old(lastAutosave)
        && (ENTRY_SCENE in data.scenes ==>
              && gameState == Playing && error == old(error)
              && backgroundImage == NewBackground(old(backgroundImage), data.scenes[ENTRY_SCENE]))
        && (ENTRY_SCENE !in data.scenes ==>
              && gameState == Start && error == Some(GENERATION_ERROR)
              && backgroundImage == old(backgroundImage))
    {
      match outcome {
        case GenerationFailed =>
          error := Some(GENERATION_ERROR);
          gameState := Start;
        case Generated(generated) =>
          var data := generated;
          if !HasPlayer(data.characters) {
            data := data.(characters := data.characters + [PLAYER]);
          }
          story := Some(data);
          currentSceneId := ENTRY_SCENE;
          var scores := InitialScores(data.characters);
          relationshipScores := scores;
          if ENTRY_SCENE in data.scenes {
            var bg := data.scenes[ENTRY_SCENE].visuals.backgroundImage;
            if bg != "" {
              backgroundImage := bg;
            }
            gameState := Playing;
          } else {
            error := Some(GENERATION_ERROR);
            gameState := Start;
          }
      }
    }

    /** `handleResetGame`: every field back to its initial value, and the save removed. */
    method Reset()
      requires Valid()
      modifies this, store
      ensures Valid()
      ensures State() == INITIAL.(lastAutosave := old(lastAutosave))
      ensures store.entries == old(store.entries) - {SAVE_KEY}
    {
      gameState := Start;
      story := None;
      currentSceneId := ENTRY_SCENE;
      error := None;
      backgroundImage := DEFAULT_BACKGROUND;
      relationshipScores := map[];
      store.RemoveItem(SAVE_KEY);
      saveExists := false;
    }

    /** `handleSaveGame`: overwrite the entry with the current snapshot, when the guard holds. */
    method Save()
      requires Valid()
      modifies this, store
      ensures Valid()
      ensures old(CanSave()) ==>
        && store.entries == old(store.entries)[SAVE_KEY := Saved(old(Snapshot()))]
        && State() == old(State()).(saveExists := true)
      ensures !old(CanSave()) ==>
        store.entries == old(store.entries) && State() == old(State())
    {
      if CanSave() {
        store.SetItem(SAVE_KEY, Saved(Snapshot()));
        saveExists := true;
      }
    }

    /** The autosave tick; `now` is the clock's reading. It does nothing unless a story is playing. */
    method Autosave(now: int)
      requires Valid()
      modifies this, store
      ensures Valid()
      ensures old(gameState == Playing && story.Some?) ==>
        && store.entries ==
             (if old(CanSave()) then old(store.entries)[SAVE_KEY := Saved(old(Snapshot()))]
              else old(store.entries))
        && State() == old(State()).(saveExists := old(saveExists) || old(CanSave()),
                                   lastAutosave := now)
      ensures !old(gameState == Playing && story.Some?) ==>
        store.entries == old(store.entries) && State() == old(State())
    {
      if gameState == Playing && story.Some? {
        Save();
        lastAutosave := now;
      }
    }

    /**
     * `handleLoadGame`: no entry (or an empty one) changes nothing; a parsed
     * entry restores the four saved fields and resumes play; an unparseable
     * one is reported and removed.
     */
    method Load()
      requires Valid()
      modifies this, store
      ensures Valid()
      ensures var entry := Lookup(old(store.entries), SAVE_KEY);
        && (!Truthy(entry) ==> store.entries == old(store.entries) && State() == old(State()))
        && (entry.Some? && entry.value.Saved? ==>
              var s := entry.value.session;
              && store.entries == old(store.entries)
              && State() == old(State()).(gameState := Playing, story := Some(s.story),
                                         currentSceneId := s.currentSceneId,
                                         relationshipScores := s.relationshipScores,
                                         backgroundImage := s.backgroundImage)
              && Snapshot() == s)
        && (entry == Some(Corrupt) ==>
              && store.entries == old(store.entries) - {SAVE_KEY}
              && State() == old(State()).(error := Some(LOAD_ERROR), saveExists := false)
              && !Truthy(Lookup(store.entries, SAVE_KEY)))
    {
      var entry := store.GetItem(SAVE_KEY);
      if entry.Some? && entry.value.Saved? {
        var s := entry.value.session;
        story := Some(s.story);
        currentSceneId := s.currentSceneId;
        relationshipScores := s.relationshipScores;
        backgroundImage := s.backgroundImage;
        gameState := Playing;
      } else if entry == Some(Corrupt) {
        error := Some(LOAD_ERROR);
        store.RemoveItem(SAVE_KEY);
        saveExists := false;
      }
    }

    /**
     * `handleChoice`: apply the effects to the scores, then move to the target
     * scene when its id resolves, and end the story otherwise.
     */
    method Choose(choice: Choice)
      requires Valid()
      modifies this
      ensures Valid()
      ensures relationshipScores == Applied(old(relationshipScores), EffectsOf(choice))
      ensures relationshipScores.Keys == old(relationshipScores).Keys
      ensures old(LedgerMatchesRoster()) ==> LedgerMatchesRoster()
      ensures Resolves(old(story), choice.nextSceneId) ==>
        State() == old(State()).(relationshipScores := relationshipScores,
                                 currentSceneId := choice.nextSceneId.value,
                                 backgroundImage := NewBackground(old(backgroundImage),
                                   old(story).value.scenes[choice.nextSceneId.value]))
      ensures !Resolves(old(story), choice.nextSceneId) ==>
        && State() == old(State()).(relationshipScores := relationshipScores, gameState := End)
        && Render() == EndScreen(EndingText(old(story), old(currentSceneId)))
    {
      match choice.relationshipEffects {
        case Some(effects) =>
          var scores := ApplyEffects(relationshipScores, effects);
          relationshipScores := scores;
        case None =>
      }
      if Resolves(story, choice.nextSceneId) {
        var next := choice.nextSceneId.value;
        currentSceneId := next;
        var bg := story.value.scenes[next].visuals.backgroundImage;
        if bg != "" {
          backgroundImage := bg;
        }
      } else {
        gameState := End;
      }
    }

    /** `renderContent`: which screen the state selects and what it is given. */
    function Render(): (screen: Screen)
      reads this
      ensures screen.LoadingScreen? <==> gameState == Loading
      ensures screen.GameScreen? <==> gameState == Playing && story.Some?
      ensures screen.EndScreen? <==> gameState == End
      ensures screen.StartScreen? <==> gameState == Start
      ensures screen.EndScreen? ==> screen.endingText != ""
      ensures screen.GameScreen? ==> screen.scene == SceneAt(story, currentSceneId)
    {
      match gameState
      case Loading => LoadingScreen
      case Playing =>
        if story.Some? then
          GameScreen(SceneAt(story, currentSceneId), story.value.title, relationshipScores,
                     story.value.characters, lastAutosave)
        else NoScreen
      case End => EndScreen(EndingText(story, currentSceneId))
      case Start => StartScreen(saveExists, error)
    }
  }
}

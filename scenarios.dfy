/**
 * Client methods that drive a session through several handlers and check,
 * from the handlers' contracts alone, what the component promises of sequences
 * of events.
 */
module Scenarios {
  import opened Types
  import opened Player
  import opened Ledger
  import opened Storage
  import opened App

  /** A save followed by a load restores exactly the saved fields and resumes play. */
  method SaveThenLoad(s: Session)
    requires s.Valid() && s.CanSave()
    modifies s, s.store
    ensures s.Valid()
    ensures s.gameState == Playing
    ensures s.story == old(s.story) && s.currentSceneId == old(s.currentSceneId)
    ensures s.relationshipScores == old(s.relationshipScores)
    ensures s.backgroundImage == old(s.backgroundImage)
    ensures s.store.entries == old(s.store.entries)[SAVE_KEY := Saved(old(s.Snapshot()))]
  {
    s.Save();
    s.Load();
  }

  /** A corrupt save is reported and removed on the first load; the second load changes nothing. */
  method LoadCorruptTwice(s: Session)
    requires s.Valid() && Lookup(s.store.entries, SAVE_KEY) == Some(Corrupt)
    modifies s, s.store
    ensures s.Valid()
    ensures s.State() == old(s.State()).(error := Some(LOAD_ERROR), saveExists := false)
    ensures s.store.entries == old(s.store.entries) - {SAVE_KEY}
  {
    s.Load();
    ghost var between := s.State();
    s.Load();
    assert s.State() == between;
  }

  /** While the generator runs, an autosave tick writes nothing and changes nothing. */
  method AutosaveWhileLoading(s: Session, now: int)
    requires s.Valid()
    modifies s, s.store
    ensures s.Valid()
    ensures s.store.entries == old(s.store.entries)
    ensures s.State() == old(s.State()).(gameState := Loading, error := None)
  {
    s.BeginStart();
    s.Autosave(now);
  }

  /** Starting a new story, whatever the generator answers, leaves an existing save in place. */
  method StartKeepsSave(s: Session, outcome: Generated)
    requires s.Valid()
    modifies s
    ensures s.Valid()
    ensures s.store.entries == old(s.store.entries) && s.saveExists == old(s.saveExists)
  {
    s.BeginStart();
    s.CompleteStart(outcome);
  }

  /**
   * A two-scene story: the choice out of scene_1 raises Kael's score by one and
   * moves to scene_2; the null choice out of scene_2 ends the story with
   * scene_2's narration.
   */
  method TwoSceneStory()
  {
    var store := new Store(map[]);
    var s := new Session(store);
    var go := Choice("Go", "", Some("scene_2"), Some([RelationshipEffect("Kael", 1)]));
    var stop := Choice("Stop", "", None, None);
    var first := Scene("scene_1", "", "It begins.", [], Visuals("bg1", ""), [go]);
    var second := Scene("scene_2", "", "It ends.", [], Visuals("", ""), [stop]);
    var kael := Character("Kael", "", "");
    var data := StoryData("", "", "", [kael], map["scene_1" := first, "scene_2" := second]);

    s.BeginStart();
    s.CompleteStart(Generated(data));
    IsPlayerSpellings("Kael");
    IsPlayerSpellings("You");
    assert s.story.value.characters == [kael, PLAYER];
    assert NonPlayerNames([kael, PLAYER]) == {"Kael"};
    assert s.gameState == Playing && s.backgroundImage == "bg1";
    assert s.relationshipScores == map["Kael" := 0];

    s.Choose(go);
    assert s.currentSceneId == "scene_2" && s.backgroundImage == "bg1";
    assert s.relationshipScores["Kael"] == 1;

    s.Choose(stop);
    assert s.gameState == End && s.currentSceneId == "scene_2";
    assert s.Render() == EndScreen("It ends.");
  }
}

/** The data shapes of a generated story and of the session (types.ts). */
module Types {

  /** Stands for a nullable or optional value of the source (`T | null`, `field?: T`). */
  datatype Option<+T> = None | Some(value: T)

  /** The four screens the session can show; Loading lasts while the generator runs. */
  datatype GameState = Start | Loading | Playing | End

  datatype Dialogue = Dialogue(character: string, line: string)

  /** The generator's schema declares `change` an integer. */
  datatype RelationshipEffect = RelationshipEffect(character: string, change: int)

  /**
   * An edge of the story graph. `nextSceneId == None` is the explicit ending
   * marker; `relationshipEffects == None` is a choice without the optional list.
   */
  datatype Choice = Choice(
    text: string,
    consequence: string,
    nextSceneId: Option<string>,
    relationshipEffects: Option<seq<RelationshipEffect>>)

  datatype Visuals = Visuals(backgroundImage: string, characterIllustration: string)

  datatype Scene = Scene(
    id: string,
    title: string,
    narration: string,
    dialogue: seq<Dialogue>,
    visuals: Visuals,
    choices: seq<Choice>)

  datatype Character = Character(name: string, description: string, portraitUrl: string)

  /** Scenes form a finite map from id to scene, with no order among them. */
  datatype StoryData = StoryData(
    title: string,
    premise: string,
    setting: string,
    characters: seq<Character>,
    scenes: map<string, Scene>)

  /** Character name to score. */
  type RelationshipScores = map<string, int>
}

/**
 * The in-editor preview player (`GamePlayer`): the pure picture of one moment of play
 * (sprites, speaker banner, text and the single affordance) and the state machine that
 * moves through a story (title/playing mode, current scene, dialogue index).
 */
module Playback {
  import opened Wrappers
  import opened Model

  // ---------------------------------------------------------------------------
  // Sprites (`CharacterSprite`)

  /**
   * The portrait a present character shows: the line's expression when this character
   * speaks and the id resolves within it, else the neutral one, else the first one.
   */
  function ShownExpression(c: Character, isSpeaking: bool, expressionId: Option<string>): (r: Option<Expression>)
    ensures r.Some? ==> r.value in c.expressions
    ensures r.None? <==> c.expressions == []
    ensures isSpeaking && Truthy(expressionId) && FindExpression(c.expressions, expressionId.value).Some? ==>
      r.Some? && r.value.id == expressionId.value
    ensures !(isSpeaking && Truthy(expressionId) && FindExpression(c.expressions, expressionId.value).Some?) ==>
      && ((exists e :: e in c.expressions && e.name == Neutral) ==> r.Some? && r.value.name == Neutral)
      && ((forall e :: e in c.expressions ==> e.name != Neutral) && c.expressions != [] ==> r == Some(c.expressions[0]))
    ensures isSpeaking && Truthy(expressionId) && FindExpression(c.expressions, expressionId.value).Some? ==>
      r == FindExpression(c.expressions, expressionId.value)
    ensures !(isSpeaking && Truthy(expressionId) && FindExpression(c.expressions, expressionId.value).Some?) ==>
      r == NeutralOrFirst(c.expressions)
  {
    var requested := if isSpeaking && Truthy(expressionId) then FindExpression(c.expressions, expressionId.value) else None;
    if requested.Some? then requested else NeutralOrFirst(c.expressions)
  }

  /** `expressionToShow?.imageUrl || ''`: empty when there is no portrait or it has no art. */
  function SpriteImage(c: Character, isSpeaking: bool, expressionId: Option<string>): (url: string)
    ensures url != "" ==> exists e :: e in c.expressions && e.imageUrl == url
    ensures c.expressions == [] ==> url == ""
    ensures ShownExpression(c, isSpeaking, expressionId).Some? ==>
      url == ShownExpression(c, isSpeaking, expressionId).value.imageUrl
  {
    match ShownExpression(c, isSpeaking, expressionId)
    case None => ""
    case Some(e) => e.imageUrl
  }

  /**
   * The horizontal position, in percent of the stage width, of sprite `index` out of
   * `total`: centred when alone, otherwise spread evenly from 15 to 85.
   */
  function SpriteLeft(index: nat, total: nat): (left: real)
    ensures total <= 1 ==> left == 50.0
    ensures 15.0 <= left
  {
    if total <= 1 then 50.0 else (index as real / (total - 1) as real) * 70.0 + 15.0
  }

  /** The first sprite stands at 15, the last at 85, and every one lies between. */
  lemma SpriteSpreadEnds(total: nat)
    requires total >= 2
    ensures SpriteLeft(0, total) == 15.0 && SpriteLeft(total - 1, total) == 85.0
  {
  }

  /** Every position lies in [15, 85]. */
  lemma SpriteLeftBounds(index: nat, total: nat)
    requires index < total
    ensures 15.0 <= SpriteLeft(index, total) <= 85.0
  {
    if total > 1 {
      var d := (total - 1) as real;
      assert 0.0 <= index as real / d <= 1.0 by {
        assert index as real <= d;
      }
    }
  }

  /** Position strictly increases with the index, so no two sprites overlap in place. */
  lemma SpriteLeftIncreasing(i: nat, j: nat, total: nat)
    requires i < j < total
    ensures SpriteLeft(i, total) < SpriteLeft(j, total)
  {
    var d := (total - 1) as real;
    assert i as real / d < j as real / d by {
      assert d > 0.0 && i as real < j as real;
      assert (j as real / d - i as real / d) * d == j as real - i as real;
    }
  }

  /** How strongly a sprite is drawn. */
  datatype Emphasis = Emphasis(brightness: real, scale: real, zIndex: int)

  function EmphasisOf(isSpeaking: bool): (e: Emphasis)
    ensures e.brightness == 1.0 <==> isSpeaking
    ensures e.scale == 1.0 <==> isSpeaking
    ensures e.zIndex == 10 <==> isSpeaking
    ensures !isSpeaking ==> e.brightness < 1.0 && e.scale < 1.0 && e.zIndex < 10
  {
    if isSpeaking then Emphasis(1.0, 1.0, 10) else Emphasis(0.6, 0.95, 5)
  }

  /** The speaker is drawn brighter, larger and above every other present character. */
  lemma SpeakerStandsOut()
    ensures var s, o := EmphasisOf(true), EmphasisOf(false);
      s.brightness > o.brightness && s.scale > o.scale && s.zIndex > o.zIndex
      && s == Emphasis(1.0, 1.0, 10) && o == Emphasis(0.6, 0.95, 5)
  {
  }

  /** A drawn sprite. */
  datatype Sprite = Sprite(characterId: string, imageUrl: string, left: real, emphasis: Emphasis)

  /** The sprite of `present[i]` while `line` is shown, or `None` when it has no art. */
  function SpriteAt(present: seq<Character>, line: DialogueLine, i: nat): (r: Option<Sprite>)
    requires i < |present|
    ensures r.Some? <==> SpriteImage(present[i], line.characterId == Some(present[i].id), line.expressionId) != ""
    ensures r.Some? ==> (r.value.characterId == present[i].id && r.value.left == SpriteLeft(i, |present|)
      && r.value.emphasis == EmphasisOf(line.characterId == Some(present[i].id))
      && r.value.imageUrl == SpriteImage(present[i], line.characterId == Some(present[i].id), line.expressionId))
  {
    var c := present[i];
    var speaking := line.characterId == Some(c.id);
    var url := SpriteImage(c, speaking, line.expressionId);
    if url == "" then None else Some(Sprite(c.id, url, SpriteLeft(i, |present|), EmphasisOf(speaking)))
  }

  /** One slot per present character, in order; a slot is empty when that character has no art. */
  function Sprites(present: seq<Character>, line: DialogueLine): (r: seq<Option<Sprite>>)
    ensures |r| == |present|
    ensures forall i :: 0 <= i < |present| ==> r[i] == SpriteAt(present, line, i)
  {
    seq(|present|, i requires 0 <= i < |present| => SpriteAt(present, line, i))
  }

  /** At most one drawn sprite is emphasised as speaking: the one whose id the line names. */
  lemma OnlyTheSpeakerIsEmphasised(present: seq<Character>, line: DialogueLine, i: nat)
    requires i < |present| && Sprites(present, line)[i].Some?
    ensures Sprites(present, line)[i].value.emphasis == EmphasisOf(true) <==> line.characterId == Some(present[i].id)
  {
  }

  /** `presentCharacterIds` resolved with `find`, in order, unresolved ids dropped. */
  function PresentCharacters(characters: seq<Character>, ids: seq<string>): (r: seq<Character>)
    ensures |r| <= |ids|
    ensures forall c :: c in r ==> c in characters && c.id in ids
    ensures forall id :: id in ids && FindCharacter(characters, id).Some? ==> FindCharacter(characters, id).value in r
    ensures (forall id :: id in ids ==> FindCharacter(characters, id).Some?) ==> |r| == |ids|
    ensures |ids| == 1 && FindCharacter(characters, ids[0]).Some? ==> r == [FindCharacter(characters, ids[0]).value]
    ensures |ids| == 1 && FindCharacter(characters, ids[0]).None? ==> r == []
  {
    if ids == [] then []
    else
      var rest := PresentCharacters(characters, ids[1..]);
      assert forall id :: id in ids[1..] ==> id in ids;
      match FindCharacter(characters, ids[0])
      case None => rest
      case Some(c) => [c] + rest
  }

  /** The characters the id `id` resolves to: the one `find` returns, or none. */
  function Resolved(characters: seq<Character>, id: string): seq<Character>
  {
    match FindCharacter(characters, id)
    case None => []
    case Some(c) => [c]
  }

  lemma PresentCharactersCons(characters: seq<Character>, ids: seq<string>)
    requires ids != []
    ensures PresentCharacters(characters, ids) == Resolved(characters, ids[0]) + PresentCharacters(characters, ids[1..])
  {
  }

  /**
   * Resolving a concatenation resolves each part, so the characters keep the order of
   * `presentCharacterIds`; with the one-id case this fixes the result exactly.
   */
  lemma {:induction false} PresentCharactersAppend(characters: seq<Character>, a: seq<string>, b: seq<string>)
    ensures PresentCharacters(characters, a + b) == PresentCharacters(characters, a) + PresentCharacters(characters, b)
  {
    if a == [] {
      assert a + b == b;
    } else {
      var ab := a + b;
      assert ab[0] == a[0] && ab[1..] == a[1..] + b;
      PresentCharactersAppend(characters, a[1..], b);
      PresentCharactersCons(characters, ab);
      PresentCharactersCons(characters, a);
    }
  }

  // ---------------------------------------------------------------------------
  // One moment of play

  /** The single control under the text box. */
  datatype Affordance = ChoiceButtons(choices: seq<Choice>) | EndingRestart | ContinueIndicator

  /** `isLastDialogue = dialogueIndex >= dialogue.length - 1`. */
  predicate IsLastLine(s: Scene, index: nat)
  {
    index >= |s.dialogue| - 1
  }

  /** Choices on the last line of a branching scene, the ending on the last line of an ending scene, else continue. */
  function AffordanceOf(s: Scene, index: nat): (a: Affordance)
    ensures a.ContinueIndicator? <==> !IsLastLine(s, index)
    ensures a.ChoiceButtons? <==> IsLastLine(s, index) && !IsEnding(s)
    ensures a.EndingRestart? <==> IsLastLine(s, index) && IsEnding(s)
    ensures a.ChoiceButtons? ==> a.choices == s.choices
  {
    if !IsLastLine(s, index) then ContinueIndicator
    else if |s.choices| > 0 then ChoiceButtons(s.choices)
    else EndingRestart
  }

  /** What fills the stage behind the sprites: the scene's picture, or a plain colour. */
  datatype Backdrop = Picture(url: string) | Fill(color: string)

  /**
   * The preview's stage: the background image over the player's black (`bg-black`)
   * container; an empty URL loads no picture, so the stage stays black.
   */
  function PreviewBackdrop(url: string): (b: Backdrop)
    ensures b.Picture? <==> url != ""
    ensures b.Picture? ==> b.url == url
    ensures b.Fill? ==> b.color == "#000000"
  {
    if url != "" then Picture(url) else Fill("#000000")
  }

  /** What the gameplay screen draws for one line. */
  datatype Frame = Frame(
    backdrop: Backdrop,
    sprites: seq<Option<Sprite>>,
    banner: Option<string>,
    text: string,
    affordance: Affordance)

  /** The speaker banner of the preview: shown only for a truthy speaker id whose character has a non-empty name. */
  function PreviewBanner(vn: Novel, line: DialogueLine): (r: Option<string>)
    ensures r.Some? <==> (Truthy(line.characterId)
      && FindCharacter(vn.characters, line.characterId.value).Some?
      && FindCharacter(vn.characters, line.characterId.value).value.name != "")
    ensures r.Some? ==> r.value == FindCharacter(vn.characters, line.characterId.value).value.name
  {
    if !Truthy(line.characterId) then None
    else match FindCharacter(vn.characters, line.characterId.value)
      case None => None
      case Some(c) => if c.name == "" then None else Some(c.name)
  }

  function PreviewFrame(vn: Novel, s: Scene, index: nat): Frame
    requires index < |s.dialogue|
  {
    var line := s.dialogue[index];
    Frame(PreviewBackdrop(s.backgroundUrl), Sprites(PresentCharacters(vn.characters, s.presentCharacterIds), line),
          PreviewBanner(vn, line), line.text, AffordanceOf(s, index))
  }

  /** `vn.coverUrl || startScene?.backgroundUrl || ''`. */
  function TitleBackground(vn: Novel): (url: string)
    ensures vn.coverUrl != "" ==> url == vn.coverUrl
    ensures vn.coverUrl == "" && FindScene(vn.scenes, vn.startSceneId).Some? ==>
      url == FindScene(vn.scenes, vn.startSceneId).value.backgroundUrl
    ensures vn.coverUrl == "" && FindScene(vn.scenes, vn.startSceneId).None? ==> url == ""
  {
    if vn.coverUrl != "" then vn.coverUrl
    else match FindScene(vn.scenes, vn.startSceneId)
      case None => ""
      case Some(s) => s.backgroundUrl
  }

  datatype Mode = TitleMode | Playing

  /** Everything the player component can show. */
  datatype View =
    | TitleScreen(title: string, description: Option<string>, backgroundUrl: string)
    | SceneNotFound(sceneId: string)
    | Blank
    | Gameplay(frame: Frame)

  /**
   * The preview's screen for a state. A missing scene shows the error screen; an index
   * with no line (`currentDialogueLine` undefined) renders nothing.
   */
  function PreviewView(vn: Novel, mode: Mode, sceneId: string, index: nat): (v: View)
    ensures v.TitleScreen? <==> mode == TitleMode
    ensures v.SceneNotFound? <==> mode == Playing && FindScene(vn.scenes, sceneId).None?
    ensures v.Gameplay? <==> (mode == Playing && FindScene(vn.scenes, sceneId).Some?
      && index < |FindScene(vn.scenes, sceneId).value.dialogue|)
    ensures v.TitleScreen? ==> (v.backgroundUrl == TitleBackground(vn)
      && (v.description.Some? <==> vn.description != ""))
  {
    if mode == TitleMode then
      TitleScreen(vn.title, if vn.description != "" then Some(vn.description) else None, TitleBackground(vn))
    else
      assert mode == Playing;
      match FindScene(vn.scenes, sceneId)
      case None => SceneNotFound(sceneId)
      case Some(s) => if index < |s.dialogue| then Gameplay(PreviewFrame(vn, s, index)) else Blank
  }

  /**
   * A scene with no dialogue at all never shows its choices or its ending: index 0 has no
   * line, so the screen stays blank and there is nothing to click.
   */
  lemma EmptySceneShowsNothing(vn: Novel, sceneId: string)
    requires FindScene(vn.scenes, sceneId).Some? && FindScene(vn.scenes, sceneId).value.dialogue == []
    ensures PreviewView(vn, Playing, sceneId, 0) == Blank
  {
  }

  /** The index the preview may hold for a scene: 0, or the position of an existing line. */
  ghost predicate IndexInRange(vn: Novel, sceneId: string, index: nat)
  {
    index == 0 || (FindScene(vn.scenes, sceneId).Some? && index < |FindScene(vn.scenes, sceneId).value.dialogue|)
  }

  /** With an in-range index and at least one line, the gameplay frame is drawn (never the blank screen). */
  lemma InRangeIndexDraws(vn: Novel, sceneId: string, index: nat)
    requires IndexInRange(vn, sceneId, index)
    requires FindScene(vn.scenes, sceneId).Some? && FindScene(vn.scenes, sceneId).value.dialogue != []
    ensures PreviewView(vn, Playing, sceneId, index).Gameplay?
  {
  }

  // ---------------------------------------------------------------------------
  // The player state machine

  /**
   * `GamePlayer` with its `GameplayScreen`: the mode is `gameState`, `sceneId` the
   * caller's `currentSceneId` (set through `onChoice`), `dialogueIndex` the screen's state,
   * which starts at 0 whenever the screen is mounted and is reset when the scene id changes.
   */
  class PreviewPlayer {
    const vn: Novel
    var sceneId: string
    var mode: Mode
    var dialogueIndex: nat

    ghost predicate Valid()
      reads this
    {
      IndexInRange(vn, sceneId, dialogueIndex)
    }

    function View(): View
      reads this
    {
      PreviewView(vn, mode, sceneId, dialogueIndex)
    }

    constructor(vn: Novel, currentSceneId: string, startFromTitle: bool)
      ensures this.vn == vn && sceneId == currentSceneId && dialogueIndex == 0
      ensures mode == if startFromTitle then TitleMode else Playing
      ensures Valid()
    {
      this.vn := vn;
      sceneId := currentSceneId;
      mode := if startFromTitle then TitleMode else Playing;
      dialogueIndex := 0;
    }

    /** GAME START on the title screen: `onChoice(startSceneId)`, then a freshly mounted gameplay screen. */
    method StartGame()
      requires Valid()
      modifies this
      ensures old(mode) == TitleMode ==> sceneId == vn.startSceneId && mode == Playing && dialogueIndex == 0
      ensures old(mode) != TitleMode ==> unchanged(this)
      ensures Valid()
    {
      if mode == TitleMode {
        sceneId := vn.startSceneId;
        mode := Playing;
        dialogueIndex := 0;
      }
    }

    /** The restart button, which exists only on an ending: back to the title screen. */
    method Restart()
      requires Valid()
      modifies this
      ensures old(View()).Gameplay? && old(View()).frame.affordance.EndingRestart? ==>
        mode == TitleMode && sceneId == old(sceneId) && dialogueIndex == old(dialogueIndex)
      ensures !(old(View()).Gameplay? && old(View()).frame.affordance.EndingRestart?) ==> unchanged(this)
      ensures Valid()
    {
      var v := View();
      if v.Gameplay? && v.frame.affordance.EndingRestart? {
        mode := TitleMode;
      }
    }

    /** `handleAdvance`, a click on the gameplay screen: the next line unless this is the last one. */
    method Advance()
      requires Valid()
      modifies this
      ensures old(View()).Gameplay? && old(View()).frame.affordance.ContinueIndicator? ==>
        dialogueIndex == old(dialogueIndex) + 1 && sceneId == old(sceneId) && mode == old(mode)
      ensures !(old(View()).Gameplay? && old(View()).frame.affordance.ContinueIndicator?) ==> unchanged(this)
      ensures Valid()
    {
      var v := View();
      if v.Gameplay? && v.frame.affordance.ContinueIndicator? {
        dialogueIndex := dialogueIndex + 1;
      }
    }

    /**
     * Choice button `k`: `onChoice(nextSceneId)` sets the app's scene id. The index is reset
     * only by the effect on `currentSceneId`, so a choice leading back to the same scene
     * keeps it. The app replaces an empty scene id with the start scene's id (App.tsx), so a
     * choice with no target restarts the story at its start scene.
     */
    method Choose(k: nat)
      requires Valid()
      modifies this
      ensures var v := old(View());
        v.Gameplay? && v.frame.affordance.ChoiceButtons? && k < |v.frame.affordance.choices| ==>
          var target := v.frame.affordance.choices[k].nextSceneId;
          mode == Playing
          && (target == old(sceneId) ==> sceneId == old(sceneId) && dialogueIndex == old(dialogueIndex))
          && (target != old(sceneId) ==> dialogueIndex == 0 && sceneId == if target == "" then vn.startSceneId else target)
      ensures var v := old(View());
        !(v.Gameplay? && v.frame.affordance.ChoiceButtons? && k < |v.frame.affordance.choices|) ==> unchanged(this)
      ensures Valid()
    {
      var v := View();
      if v.Gameplay? && v.frame.affordance.ChoiceButtons? && k < |v.frame.affordance.choices| {
        var target := v.frame.affordance.choices[k].nextSceneId;
        if target != sceneId {
          dialogueIndex := 0;
          sceneId := if target == "" then vn.startSceneId else target;
        }
      }
    }
  }

  /** The continue indicator is shown exactly when a click would move to the next line. */
  lemma ContinueIffAdvances(vn: Novel, sceneId: string, index: nat)
    requires PreviewView(vn, Playing, sceneId, index).Gameplay?
    ensures var s := FindScene(vn.scenes, sceneId).value;
      PreviewView(vn, Playing, sceneId, index).frame.affordance.ContinueIndicator? <==> index + 1 < |s.dialogue|
  {
  }

  /**
   * Choices can only be picked on the last line, so no line of a scene is skipped: a run of
   * advances from index 0 visits every line before any choice or ending appears.
   */
  lemma ChoicesOnlyOnLastLine(vn: Novel, sceneId: string, index: nat)
    requires PreviewView(vn, Playing, sceneId, index).Gameplay?
    requires !PreviewView(vn, Playing, sceneId, index).frame.affordance.ContinueIndicator?
    ensures index == |FindScene(vn.scenes, sceneId).value.dialogue| - 1
  {
  }
}

/**
 * The player embedded in the HTML export (`WEB_GAME_SCRIPT`): a second copy of the
 * preview's state machine over the globals `currentSceneId` and `dialogueIndex`, drawing
 * into the DOM. The sprite, text and affordance logic is the preview's; the speaker test,
 * the missing-line case and the reset on a choice differ, and so does what stays on screen
 * when `render` stops early.
 */
module WebRuntime {
  import opened Wrappers
  import opened Model
  import opened Playback

  /**
   * The speaker banner of the web runtime: `find(c => c.id === line.characterId)` with no
   * truthiness test, shown whenever a character is found, even one with an empty name.
   */
  function WebBanner(vn: Novel, line: DialogueLine): (r: Option<string>)
    ensures r.Some? <==> (line.characterId.Some? && FindCharacter(vn.characters, line.characterId.value).Some?)
    ensures r.Some? ==> r.value == FindCharacter(vn.characters, line.characterId.value).value.name
  {
    match line.characterId
    case None => None
    case Some(id) =>
      match FindCharacter(vn.characters, id)
      case None => None
      case Some(c) => Some(c.name)
  }

  /**
   * The exported player's stage: the background image, or, for an empty URL, no image and
   * the fill colour `#1f2937`.
   */
  function WebBackdrop(url: string): (b: Backdrop)
    ensures b.Picture? <==> url != ""
    ensures b.Picture? ==> b.url == url
    ensures b.Fill? ==> b.color == "#1f2937"
  {
    if url != "" then Picture(url) else Fill("#1f2937")
  }

  /** The two players show the same stage exactly when the scene has a background URL. */
  lemma BackdropsAgreeIffBackground(url: string)
    ensures WebBackdrop(url) == PreviewBackdrop(url) <==> url != ""
  {
    if url == "" {
      assert WebBackdrop(url).color[1] == '1' && PreviewBackdrop(url).color[1] == '0';
    }
  }

  /** What one call of `render()` does. */
  datatype Render =
    | Alert                 // no scene with the current id: an alert, and the DOM is left as it was
    | Crash                 // no line at the index: `line.characterId` throws, the DOM is left half-cleared
    | Drawn(frame: Frame)

  function WebRender(vn: Novel, sceneId: string, index: nat): (r: Render)
    ensures r.Alert? <==> FindScene(vn.scenes, sceneId).None?
    ensures r.Crash? <==> (FindScene(vn.scenes, sceneId).Some? && index >= |FindScene(vn.scenes, sceneId).value.dialogue|)
  {
    match FindScene(vn.scenes, sceneId)
    case None => Alert
    case Some(s) =>
      if index < |s.dialogue| then
        var line := s.dialogue[index];
        Drawn(Frame(WebBackdrop(s.backgroundUrl), Sprites(PresentCharacters(vn.characters, s.presentCharacterIds), line),
                    WebBanner(vn, line), line.text, AffordanceOf(s, index)))
      else Crash
  }

  /**
   * On any state with a line to show, the exported player and the preview draw the same
   * sprites, text and affordance, and the same background picture; without one, the stage
   * is grey in the exported player and black in the preview. Their speaker banners differ exactly when the
   * line names a character that exists and either the id is the empty string (the preview
   * treats it as a narrator line) or that character's name is empty (the preview hides it).
   */
  lemma RenderAgreesWithPreview(vn: Novel, sceneId: string, index: nat)
    requires FindScene(vn.scenes, sceneId).Some? && index < |FindScene(vn.scenes, sceneId).value.dialogue|
    ensures WebRender(vn, sceneId, index).Drawn? && PreviewView(vn, Playing, sceneId, index).Gameplay?
    ensures var w, p := WebRender(vn, sceneId, index).frame, PreviewView(vn, Playing, sceneId, index).frame;
      && w.sprites == p.sprites && w.text == p.text && w.affordance == p.affordance
      && (w.backdrop == p.backdrop <==> FindScene(vn.scenes, sceneId).value.backgroundUrl != "")
    ensures var w, p := WebRender(vn, sceneId, index).frame, PreviewView(vn, Playing, sceneId, index).frame;
      var line := FindScene(vn.scenes, sceneId).value.dialogue[index];
      w.banner != p.banner <==>
        (line.characterId.Some? && FindCharacter(vn.characters, line.characterId.value).Some?
         && (line.characterId.value == "" || FindCharacter(vn.characters, line.characterId.value).value.name == ""))
  {
    BackdropsAgreeIffBackground(FindScene(vn.scenes, sceneId).value.backgroundUrl);
  }

  /** Where the missing-line case differs: the preview renders nothing, the exported player throws. */
  lemma MissingLineDiffers(vn: Novel, sceneId: string, index: nat)
    requires FindScene(vn.scenes, sceneId).Some? && index >= |FindScene(vn.scenes, sceneId).value.dialogue|
    ensures WebRender(vn, sceneId, index) == Crash && PreviewView(vn, Playing, sceneId, index) == Blank
  {
  }

  /**
   * The page's state: the two globals, whether the title screen is up, and the controls the
   * last successful `render` left in the choices container and continue indicator (an
   * alert or a throw leaves them in place, so their buttons stay clickable).
   */
  class WebGame {
    const vn: Novel
    var currentSceneId: string
    var dialogueIndex: nat
    var onTitle: bool
    var controls: Option<Affordance>

    ghost predicate Valid()
      reads this
    {
      IndexInRange(vn, currentSceneId, dialogueIndex)
    }

    /** The page as loaded: title screen up, globals at the start scene, nothing drawn yet. */
    constructor(vn: Novel)
      ensures this.vn == vn && currentSceneId == vn.startSceneId && dialogueIndex == 0
      ensures onTitle && controls == None && Valid()
    {
      this.vn := vn;
      currentSceneId := vn.startSceneId;
      dialogueIndex := 0;
      onTitle := true;
      controls := None;
    }

    /** `render()`: a drawn frame replaces the controls; an alert or a throw keeps the old ones. */
    method Render()
      modifies this
      ensures currentSceneId == old(currentSceneId) && dialogueIndex == old(dialogueIndex) && onTitle == old(onTitle)
      ensures match WebRender(vn, currentSceneId, dialogueIndex)
        case Drawn(f) => controls == Some(f.affordance)
        case _ => controls == old(controls)
    {
      var r := WebRender(vn, currentSceneId, dialogueIndex);
      if r.Drawn? {
        controls := Some(r.frame.affordance);
      }
    }

    /** `startGame()`, the title screen's button: the start scene from its first line. */
    method StartGame()
      requires Valid()
      modifies this
      ensures old(onTitle) ==> !onTitle && currentSceneId == vn.startSceneId && dialogueIndex == 0
      ensures old(onTitle) ==> match WebRender(vn, vn.startSceneId, 0)
        case Drawn(f) => controls == Some(f.affordance)
        case _ => controls == old(controls)
      ensures !old(onTitle) ==> unchanged(this)
      ensures Valid()
    {
      if onTitle {
        onTitle := false;
        currentSceneId := vn.startSceneId;
        dialogueIndex := 0;
        Render();
      }
    }

    /** `resetGame()`, the ending's restart button: title screen up, globals back at the start, no render. */
    method ResetGame()
      requires Valid()
      modifies this
      ensures !old(onTitle) && old(controls) == Some(EndingRestart) ==>
        onTitle && currentSceneId == vn.startSceneId && dialogueIndex == 0 && controls == old(controls)
      ensures !(!old(onTitle) && old(controls) == Some(EndingRestart)) ==> unchanged(this)
      ensures Valid()
    {
      if !onTitle && controls == Some(EndingRestart) {
        onTitle := true;
        currentSceneId := vn.startSceneId;
        dialogueIndex := 0;
      }
    }

    /** A choice button's `onclick`: always back to the first line of the target, then `render()`. */
    method ChooseChoice(k: nat)
      requires Valid()
      modifies this
      ensures !old(onTitle) && old(controls).Some? && old(controls).value.ChoiceButtons? && k < |old(controls).value.choices| ==>
        var target := old(controls).value.choices[k].nextSceneId;
        currentSceneId == target && dialogueIndex == 0 && !onTitle
        && (if WebRender(vn, target, 0).Drawn? then controls == Some(WebRender(vn, target, 0).frame.affordance)
            else controls == old(controls))
      ensures !(!old(onTitle) && old(controls).Some? && old(controls).value.ChoiceButtons? && k < |old(controls).value.choices|) ==>
        unchanged(this)
      ensures Valid()
    {
      if !onTitle && controls.Some? && controls.value.ChoiceButtons? && k < |controls.value.choices| {
        currentSceneId := controls.value.choices[k].nextSceneId;
        dialogueIndex := 0;
        Render();
      }
    }

    /** `handleScreenClick()`: the next line when the scene exists and this is not its last line. */
    method HandleScreenClick()
      requires Valid()
      modifies this
      ensures var s := FindScene(vn.scenes, old(currentSceneId));
        !old(onTitle) && s.Some? && old(dialogueIndex) < |s.value.dialogue| - 1 ==>
          dialogueIndex == old(dialogueIndex) + 1 && currentSceneId == old(currentSceneId) && !onTitle
          && WebRender(vn, currentSceneId, dialogueIndex).Drawn?
          && controls == Some(WebRender(vn, currentSceneId, dialogueIndex).frame.affordance)
      ensures var s := FindScene(vn.scenes, old(currentSceneId));
        !(!old(onTitle) && s.Some? && old(dialogueIndex) < |s.value.dialogue| - 1) ==> unchanged(this)
      ensures Valid()
    {
      if onTitle {
        return;
      }
      var scene := FindScene(vn.scenes, currentSceneId);
      if scene.None? {
        return;
      }
      if dialogueIndex >= |scene.value.dialogue| - 1 {
        return;
      }
      dialogueIndex := dialogueIndex + 1;
      Render();
    }
  }

  /**
   * A click advances the exported player exactly when the preview shows its continue
   * indicator for the same state, so both step through a scene's lines alike.
   */
  lemma ClickAgreesWithPreview(vn: Novel, sceneId: string, index: nat)
    requires PreviewView(vn, Playing, sceneId, index).Gameplay?
    ensures var s := FindScene(vn.scenes, sceneId).value;
      index < |s.dialogue| - 1 <==> PreviewView(vn, Playing, sceneId, index).frame.affordance.ContinueIndicator?
  {
  }

  /** A one-scene story whose only choice leads back to the scene itself. */
  function SelfLoopNovel(): Novel
  {
    Novel("", "", "", [],
      [Scene("loop", "", "", [], [DialogueLine(None, None, "a"), DialogueLine(None, None, "b")],
             [Choice("again", "loop")], None)],
      "loop")
  }

  /**
   * Choosing a choice that leads back to the current scene: the exported player restarts
   * the scene at its first line, while the preview stays on the last line with the choices
   * still up, because its reset only fires when the scene id changes.
   */
  method SelfLoopChoiceDiverges() returns (previewIndex: nat, webIndex: nat)
    ensures previewIndex == 1 && webIndex == 0
  {
    var vn := SelfLoopNovel();
    var preview := new PreviewPlayer(vn, "loop", true);
    preview.StartGame();
    preview.Advance();
    preview.Choose(0);
    previewIndex := preview.dialogueIndex;

    var web := new WebGame(vn);
    web.StartGame();
    web.HandleScreenClick();
    web.ChooseChoice(0);
    webIndex := web.dialogueIndex;
  }

  /** A one-scene story whose only choice has no target yet, the editor's default for a new choice. */
  function UntargetedChoiceNovel(): Novel
  {
    Novel("", "", "", [],
      [Scene("start", "", "", [], [DialogueLine(None, None, "a")], [Choice("go", "")], None)],
      "start")
  }

  /**
   * Choosing a choice whose target is empty: the exported player looks for a scene with the
   * id `""` and stops at the alert, while the app behind the preview falls back to the start
   * scene, so the preview shows the start scene again from its first line.
   */
  method UntargetedChoiceDiverges() returns (previewSceneId: string, previewDraws: bool, webAlerts: bool)
    ensures previewSceneId == "start" && previewDraws && webAlerts
  {
    var vn := UntargetedChoiceNovel();
    var preview := new PreviewPlayer(vn, "start", true);
    preview.StartGame();
    preview.Choose(0);
    previewSceneId := preview.sceneId;
    previewDraws := preview.View().Gameplay?;

    var web := new WebGame(vn);
    web.StartGame();
    web.ChooseChoice(0);
    webAlerts := WebRender(vn, web.currentSceneId, web.dialogueIndex).Alert?;
  }
}

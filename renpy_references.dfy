/**
 * Whether the names the generated Ren'Py script uses are declared in it: portraits,
 * backgrounds and speakers always are; jump targets are exactly when the novel's start
 * scene and choice targets exist.
 */
module RenpyReferences {
  import opened Wrappers
  import opened Model
  import opened RenpyText
  import opened RenpyExport
  import opened RenpyProperties

  lemma {:induction false} OnlySubset(ss: seq<Stmt>, k: Kind, st: Stmt)
    requires st in Only(ss, k)
    ensures st in ss && KindOf(st) == k
  {
    var prefix, last := ss[..|ss| - 1], ss[|ss| - 1];
    assert ss == prefix + [last];
    if st in Only(prefix, k) {
      OnlySubset(prefix, k, st);
    }
  }

  lemma {:induction false} OnlyComplete(ss: seq<Stmt>, k: Kind, st: Stmt)
    requires st in ss && KindOf(st) == k
    ensures st in Only(ss, k)
  {
    var prefix, last := ss[..|ss| - 1], ss[|ss| - 1];
    assert ss == prefix + [last];
    if st != last {
      OnlyComplete(prefix, k, st);
    }
  }

  /**
   * A statement that uses a name finds its declaration in `ss`: a shown portrait its
   * image, a scene's background its image, a speaker its character definition.
   */
  ghost predicate Declared(ss: seq<Stmt>, st: Stmt)
  {
    match st
    case Show(c, e) => CharacterImage(c, e) in ss
    case ShowAt(c, e, _) => CharacterImage(c, e) in ss
    case SceneBg(b) => BackgroundImage(b) in ss
    case Say(speaker, _) => speaker.Some? ==> exists name :: Define(speaker.value, name) in ss
    case _ => true
  }

  /** The names a statement uses come from the novel's characters, expressions and scenes. */
  ghost predicate Backed(vn: Novel, st: Stmt)
  {
    match st
    case Show(c, e) => CharacterImage(c, e) in ImagePairs(vn.characters)
    case ShowAt(c, e, _) => CharacterImage(c, e) in ImagePairs(vn.characters)
    case SceneBg(b) => BackgroundImage(b) in BackgroundImages(vn.scenes)
    case Say(speaker, _) => speaker.Some? ==> exists c :: c in vn.characters && speaker.value == RenpyId(c.id)
    case _ => true
  }

  lemma KindBacked(vn: Novel, st: Stmt)
    requires KindOf(st) != ShowKind && KindOf(st) != ShowAtKind && KindOf(st) != SceneBgKind && KindOf(st) != SayKind
    ensures Backed(vn, st)
  {
  }

  lemma {:induction false} BackgroundImagesComplete(scenes: seq<Scene>, s: Scene)
    requires s in scenes
    ensures BackgroundImage(BgTag(s)) in BackgroundImages(scenes)
  {
    if s != scenes[|scenes| - 1] {
      assert scenes == scenes[..|scenes| - 1] + [scenes[|scenes| - 1]];
      BackgroundImagesComplete(scenes[..|scenes| - 1], s);
    }
  }

  lemma {:induction false} DefinitionsComplete(cs: seq<Character>, c: Character)
    requires c in cs
    ensures Define(RenpyId(c.id), c.name) in Definitions(cs)
  {
    if c != cs[|cs| - 1] {
      assert cs == cs[..|cs| - 1] + [cs[|cs| - 1]];
      DefinitionsComplete(cs[..|cs| - 1], c);
    }
  }

  lemma {:induction false} StageShowsBacked(vn: Novel, ids: seq<string>)
    ensures forall st :: st in StageShows(vn.characters, ids) ==> Backed(vn, st)
  {
    if ids != [] {
      StageShowsBacked(vn, ids[..|ids| - 1]);
      match FindCharacter(vn.characters, ids[|ids| - 1])
      case None =>
      case Some(c) =>
        RenpyNeutralIsPlayers(c.expressions);
        match RenpyNeutral(c.expressions)
        case None =>
        case Some(e) => ImagePairsComplete(vn.characters, c, e);
    }
  }

  lemma LineBacked(vn: Novel, line: DialogueLine)
    ensures forall st :: st in LineStatements(vn.characters, line) ==> Backed(vn, st)
  {
    if Truthy(line.characterId) {
      match FindCharacter(vn.characters, line.characterId.value)
      case None =>
      case Some(c) =>
        if Truthy(line.expressionId) {
          match FindExpression(c.expressions, line.expressionId.value)
          case None =>
          case Some(e) => ImagePairsComplete(vn.characters, c, e);
        }
    }
  }

  lemma {:induction false} DialogueBacked(vn: Novel, lines: seq<DialogueLine>)
    ensures forall st :: st in DialogueStatements(vn.characters, lines) ==> Backed(vn, st)
  {
    if lines != [] {
      DialogueBacked(vn, lines[..|lines| - 1]);
      LineBacked(vn, lines[|lines| - 1]);
    }
  }

  /** Every statement of `ss` is backed by the novel. */
  ghost predicate AllBacked(vn: Novel, ss: seq<Stmt>)
  {
    forall st :: st in ss ==> Backed(vn, st)
  }

  lemma BackedAppend(vn: Novel, a: seq<Stmt>, b: seq<Stmt>)
    requires AllBacked(vn, a) && AllBacked(vn, b)
    ensures AllBacked(vn, a + b)
  {
  }

  lemma KindsBacked(vn: Novel, ss: seq<Stmt>, x: Kind, y: Kind)
    requires AllIn(ss, x, y)
    requires x != ShowKind && x != ShowAtKind && x != SceneBgKind && x != SayKind
    requires y != ShowKind && y != ShowAtKind && y != SceneBgKind && y != SayKind
    ensures AllBacked(vn, ss)
  {
    forall st | st in ss
      ensures Backed(vn, st)
    {
      KindBacked(vn, st);
    }
  }

  lemma ClosingBacked(vn: Novel, s: Scene)
    ensures AllBacked(vn, Closing(s))
  {
    if |s.choices| > 0 {
      MenuArmsKinds(s.choices);
      KindsBacked(vn, MenuArms(s.choices), MenuItemKind, JumpKind);
      BackedAppend(vn, [Blank, Menu], MenuArms(s.choices));
    }
  }

  lemma SceneBlockBacked(vn: Novel, s: Scene)
    requires s in vn.scenes
    ensures forall st :: st in SceneBlock(vn, s) ==> Backed(vn, st)
  {
    var opening := [Label(RenpyId(s.id)), Blank, SceneBg(BgTag(s)), Blank];
    var hides := Hides(vn.characters);
    var staging := Staging(vn.characters, s.presentCharacterIds);
    var dialogue := DialogueStatements(vn.characters, s.dialogue);
    assert AllBacked(vn, opening) by {
      BackgroundImagesComplete(vn.scenes, s);
    }
    assert AllBacked(vn, hides) by {
      HidesKinds(vn.characters);
      KindsBacked(vn, hides, HideKind, HideKind);
    }
    assert AllBacked(vn, staging) by {
      StageShowsBacked(vn, s.presentCharacterIds);
    }
    assert AllBacked(vn, dialogue) by {
      DialogueBacked(vn, s.dialogue);
    }
    ClosingBacked(vn, s);
    BackedAppend(vn, opening, hides);
    BackedAppend(vn, opening + hides, staging);
    BackedAppend(vn, opening + hides + staging, dialogue);
    BackedAppend(vn, opening + hides + staging + dialogue, Closing(s));
    BackedAppend(vn, opening + hides + staging + dialogue + Closing(s), [Blank]);
  }

  lemma {:induction false} SceneBlocksBacked(vn: Novel, scenes: seq<Scene>)
    requires forall s :: s in scenes ==> s in vn.scenes
    ensures forall st :: st in SceneBlocks(vn, scenes) ==> Backed(vn, st)
  {
    if scenes != [] {
      SceneBlocksBacked(vn, scenes[..|scenes| - 1]);
      SceneBlockBacked(vn, scenes[|scenes| - 1]);
    }
  }

  lemma FrontAndEntryBacked(vn: Novel)
    ensures forall st :: st in FrontMatter(vn) + Entry(vn) ==> Backed(vn, st)
  {
    var images := CharacterImages(vn.characters);
    var backgrounds := BackgroundImages(vn.scenes);
    var definitions := Definitions(vn.characters);
    assert AllBacked(vn, images) by {
      CharacterImagesKinds(vn.characters);
      KindsBacked(vn, images, CharacterImageKind, VerbatimKind);
    }
    assert AllBacked(vn, backgrounds) by {
      BackgroundImagesKinds(vn.scenes);
      KindsBacked(vn, backgrounds, BackgroundImageKind, BackgroundImageKind);
    }
    assert AllBacked(vn, definitions) by {
      DefinitionsKinds(vn.characters);
      KindsBacked(vn, definitions, DefineKind, DefineKind);
    }
    var chapter := [Blank, Verbatim("## 2. Character Definitions")];
    BackedAppend(vn, Header, images);
    BackedAppend(vn, Header + images, backgrounds);
    BackedAppend(vn, Header + images + backgrounds, chapter);
    BackedAppend(vn, Header + images + backgrounds + chapter, definitions);
    BackedAppend(vn, Header + images + backgrounds + chapter + definitions, [Blank]);
    BackedAppend(vn, FrontMatter(vn), Entry(vn));
  }

  lemma BackedIsDeclared(vn: Novel, st: Stmt)
    requires Backed(vn, st)
    ensures Declared(RenpyStatements(vn), st)
  {
    var ss := RenpyStatements(vn);
    match st
    case Show(c, e) =>
      CharacterImagesDeclared(vn);
      OnlySubset(ss, CharacterImageKind, CharacterImage(c, e));
    case ShowAt(c, e, _) =>
      CharacterImagesDeclared(vn);
      OnlySubset(ss, CharacterImageKind, CharacterImage(c, e));
    case SceneBg(b) =>
      assert BackgroundImage(b) in FrontMatter(vn);
    case Say(speaker, _) =>
      if speaker.Some? {
        var c :| c in vn.characters && speaker.value == RenpyId(c.id);
        DefinitionsComplete(vn.characters, c);
        assert Define(speaker.value, c.name) in FrontMatter(vn);
      }
    case _ =>
  }

  /**
   * Every portrait the script shows has its `image` declared, every scene background has
   * its `image` declared, and every speaker has its `define`.
   */
  lemma ReferencesDeclared(vn: Novel)
    ensures forall st :: st in RenpyStatements(vn) ==> Declared(RenpyStatements(vn), st)
  {
    FrontAndEntryBacked(vn);
    SceneBlocksBacked(vn, vn.scenes);
    forall st | st in RenpyStatements(vn)
      ensures Declared(RenpyStatements(vn), st)
    {
      BackedIsDeclared(vn, st);
    }
  }

  // ---------------------------------------------------------------------------
  // Jumps: the entry's, then every choice's; they land on labels when the targets exist

  /** Every choice's jump, scene by scene. */
  function AllChoiceJumps(scenes: seq<Scene>): seq<Stmt>
  {
    if scenes == [] then [] else AllChoiceJumps(scenes[..|scenes| - 1]) + ChoiceJumps(scenes[|scenes| - 1].choices)
  }

  lemma {:induction false} SceneBlocksJumps(vn: Novel, scenes: seq<Scene>)
    ensures Only(SceneBlocks(vn, scenes), JumpKind) == AllChoiceJumps(scenes)
  {
    if scenes != [] {
      var prefix, last := scenes[..|scenes| - 1], scenes[|scenes| - 1];
      SceneBlocksJumps(vn, prefix);
      SceneMenuFollowsChoices(vn, last);
      OnlySplit(SceneBlocks(vn, scenes), SceneBlocks(vn, prefix), SceneBlock(vn, last), JumpKind,
                AllChoiceJumps(prefix), ChoiceJumps(last.choices));
    }
  }

  /** The script's jumps are the entry's jump to the start scene, then every choice's jump in order. */
  lemma JumpsFollowChoices(vn: Novel)
    ensures Only(RenpyStatements(vn), JumpKind) == [Jump(RenpyId(vn.startSceneId), false)] + AllChoiceJumps(vn.scenes)
  {
    var entry := Jump(RenpyId(vn.startSceneId), false);
    assert Pick(Label("start"), JumpKind) == [];
    assert Pick(entry, JumpKind) == [entry];
    SceneBlocksJumps(vn, vn.scenes);
    StatementsFor(vn, JumpKind);
    DropFirst(Only(RenpyStatements(vn), JumpKind), Pick(Label("start"), JumpKind), Pick(entry, JumpKind),
              Only(SceneBlocks(vn, vn.scenes), JumpKind), [entry], AllChoiceJumps(vn.scenes));
  }

  lemma {:induction false} ChoiceJumpsSound(choices: seq<Choice>, st: Stmt)
    requires st in ChoiceJumps(choices)
    ensures exists c :: c in choices && st == Jump(RenpyId(c.nextSceneId), true)
  {
    var prefix, last := choices[..|choices| - 1], choices[|choices| - 1];
    if st != Jump(RenpyId(last.nextSceneId), true) {
      ChoiceJumpsSound(prefix, st);
      var c :| c in prefix && st == Jump(RenpyId(c.nextSceneId), true);
      assert c in choices;
    }
  }

  lemma {:induction false} AllChoiceJumpsSound(scenes: seq<Scene>, st: Stmt)
    requires st in AllChoiceJumps(scenes)
    ensures exists s, c :: s in scenes && c in s.choices && st == Jump(RenpyId(c.nextSceneId), true)
  {
    var prefix, last := scenes[..|scenes| - 1], scenes[|scenes| - 1];
    if st in ChoiceJumps(last.choices) {
      ChoiceJumpsSound(last.choices, st);
    } else {
      AllChoiceJumpsSound(prefix, st);
      var s, c :| s in prefix && c in s.choices && st == Jump(RenpyId(c.nextSceneId), true);
      assert s in scenes;
    }
  }

  /** Every choice of every scene has its jump, in the form the choice's target takes. */
  lemma {:induction false} ChoiceJumpsComplete(choices: seq<Choice>, c: Choice)
    requires c in choices
    ensures Jump(RenpyId(c.nextSceneId), true) in ChoiceJumps(choices)
  {
    if c != choices[|choices| - 1] {
      assert choices == choices[..|choices| - 1] + [choices[|choices| - 1]];
      ChoiceJumpsComplete(choices[..|choices| - 1], c);
    }
  }

  lemma {:induction false} AllChoiceJumpsComplete(scenes: seq<Scene>, s: Scene, c: Choice)
    requires s in scenes && c in s.choices
    ensures Jump(RenpyId(c.nextSceneId), true) in AllChoiceJumps(scenes)
  {
    var prefix, last := scenes[..|scenes| - 1], scenes[|scenes| - 1];
    if s == last {
      ChoiceJumpsComplete(last.choices, c);
    } else {
      assert scenes == prefix + [last];
      AllChoiceJumpsComplete(prefix, s, c);
    }
  }

  /** The scene with id `id` has its label in the script. */
  lemma LabelOfScene(vn: Novel, id: string)
    requires id in SceneIds(vn)
    ensures Label(RenpyId(id)) in RenpyStatements(vn)
  {
    var s :| s in vn.scenes && s.id == id;
    SceneLabelsComplete(vn.scenes, s);
    LabelsInSceneOrder(vn);
    OnlySubset(RenpyStatements(vn), LabelKind, Label(RenpyId(id)));
  }

  /** Every label in the script is `start` or the tag of a scene's id. */
  lemma LabelsAreScenes(vn: Novel, name: string)
    requires Label(name) in RenpyStatements(vn)
    ensures name == "start" || exists s :: s in vn.scenes && name == RenpyId(s.id)
  {
    OnlyComplete(RenpyStatements(vn), LabelKind, Label(name));
    LabelsInSceneOrder(vn);
    if name != "start" {
      SceneLabelsSound(vn.scenes, Label(name));
    }
  }

  /**
   * A choice whose target matches no scene's tag still gets its `jump`, but the script declares
   * no label of that name, so Ren'Py stops when the choice is taken.
   */
  lemma DanglingJumpHasNoLabel(vn: Novel, s: Scene, c: Choice)
    requires s in vn.scenes && c in s.choices
    requires RenpyId(c.nextSceneId) != "start"
    requires forall t :: t in vn.scenes ==> RenpyId(t.id) != RenpyId(c.nextSceneId)
    ensures Jump(RenpyId(c.nextSceneId), true) in RenpyStatements(vn)
    ensures Label(RenpyId(c.nextSceneId)) !in RenpyStatements(vn)
  {
    var ss, target := RenpyStatements(vn), RenpyId(c.nextSceneId);
    AllChoiceJumpsComplete(vn.scenes, s, c);
    JumpsFollowChoices(vn);
    OnlySubset(ss, JumpKind, Jump(target, true));
    if Label(target) in ss {
      LabelsAreScenes(vn, target);
      assert false;
    }
  }

  /** When the start scene and every choice's target exist, every jump lands on a label. */
  lemma JumpsLandOnLabels(vn: Novel)
    requires vn.startSceneId in SceneIds(vn)
    requires forall s, c :: s in vn.scenes && c in s.choices ==> c.nextSceneId in SceneIds(vn)
    ensures forall st :: st in RenpyStatements(vn) && st.Jump? ==> Label(st.target) in RenpyStatements(vn)
  {
    var ss := RenpyStatements(vn);
    JumpsFollowChoices(vn);
    forall st | st in ss && st.Jump?
      ensures Label(st.target) in ss
    {
      OnlyComplete(ss, JumpKind, st);
      if st == Jump(RenpyId(vn.startSceneId), false) {
        LabelOfScene(vn, vn.startSceneId);
      } else {
        AllChoiceJumpsSound(vn.scenes, st);
        var s, c :| s in vn.scenes && c in s.choices && st == Jump(RenpyId(c.nextSceneId), true);
        LabelOfScene(vn, c.nextSceneId);
      }
    }
  }
}

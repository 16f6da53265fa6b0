/**
 * `exportToRenpy`: the Ren'Py script generator.
 *
 * The script is specified as a list of statements, one per output line, each rendered by
 * `Render`; `Script` joins them with a newline after every line. `ExportToRenpy` is the
 * source's imperative string builder (`script += ...` inside nested loops), proved to
 * produce exactly `Script(RenpyStatements(vn))`. Text placed inside string literals is
 * escaped as the source does it, quote only (`RenpyText.EscapeQuoteOnly`); `CorrectedRender`
 * is the same rendering with backslashes doubled too (`RenpyText.Escape`).
 */
module RenpyExport {
  import opened Wrappers
  import opened Model
  import opened RenpyText

  /** One line of the generated script. */
  datatype Stmt =
    | Verbatim(line: string)
    | CharacterImage(charTag: string, exprTag: string)
    | BackgroundImage(bgTag: string)
    | Define(charVar: string, name: string)
    | Label(name: string)
    | Jump(target: string, inMenu: bool)
    | SceneBg(bgTag: string)
    | Hide(tag: string)
    | ShowAt(charTag: string, exprTag: string, position: string)
    | Show(charTag: string, exprTag: string)
    | Say(speaker: Option<string>, text: string)
    | Menu
    | MenuItem(text: string)
    | Return

  const Blank: Stmt := Verbatim("")

  /** How text is escaped inside a string literal. */
  datatype Escaping =
    | AsWritten   // the exporter's `replace`: only the quote character is escaped
    | Corrected   // backslashes are doubled as well

  function EscapeWith(esc: Escaping, s: string, q: char): string
  {
    match esc
    case AsWritten => EscapeQuoteOnly(s, q)
    case Corrected => Escape(s, q)
  }

  /**
   * A statement's line. Declarations and labels start at the margin, a label's body is
   * indented by four spaces, and a menu's arms and their jumps by eight or more.
   */
  function RenderWith(esc: Escaping, st: Stmt): (line: string)
    ensures st.Define? || st.Label? || st.CharacterImage? || st.BackgroundImage? ==> |line| > 0 && line[0] != ' '
    ensures st.SceneBg? || st.Hide? || st.ShowAt? || st.Show? || st.Say? || st.Menu? || st.Return? || st.Jump? ==>
      |line| >= 4 && line[..4] == "    "
    ensures st.MenuItem? || (st.Jump? && st.inMenu) ==> |line| >= 8 && line[..8] == "        "
  {
    match st
    case Verbatim(line) => line
    case CharacterImage(c, e) => "image " + c + " " + e + " = \"images/characters/" + c + "_" + e + ".png\""
    case BackgroundImage(b) => "image " + b + " = \"images/backgrounds/" + b + ".jpg\""
    case Define(v, n) => "define " + v + " = Character('" + EscapeWith(esc, n, '\'') + "')"
    case Label(n) => "label " + n + ":"
    case Jump(t, inMenu) => (if inMenu then "            " else "    ") + "jump " + t
    case SceneBg(b) => "    scene " + b
    case Hide(t) => "    hide " + t
    case ShowAt(c, e, p) => "    show " + c + " " + e + " " + p
    case Show(c, e) => "    show " + c + " " + e
    case Say(None, t) => "    \"" + EscapeWith(esc, t, '"') + "\""
    case Say(Some(v), t) => "    " + v + " \"" + EscapeWith(esc, t, '"') + "\""
    case Menu => "    menu:"
    case MenuItem(t) => "        \"" + EscapeWith(esc, t, '"') + "\":"
    case Return => "    return"
  }

  /** The statement places no backslash inside a string literal. */
  predicate BackslashFree(st: Stmt)
  {
    match st
    case Define(_, n) => '\\' !in n
    case Say(_, t) => '\\' !in t
    case MenuItem(t) => '\\' !in t
    case _ => true
  }

  /**
   * A statement's line as `exportToRenpy` writes it. Unless it quotes a backslash, it is
   * the corrected line.
   */
  function Render(st: Stmt): (line: string)
    ensures BackslashFree(st) ==> line == CorrectedRender(st)
  {
    match st
    case Define(_, n) =>
      if '\\' !in n then QuoteOnlySufficesWithoutBackslash(n, '\''); RenderWith(AsWritten, st)
      else RenderWith(AsWritten, st)
    case Say(_, t) =>
      if '\\' !in t then QuoteOnlySufficesWithoutBackslash(t, '"'); RenderWith(AsWritten, st)
      else RenderWith(AsWritten, st)
    case MenuItem(t) =>
      if '\\' !in t then QuoteOnlySufficesWithoutBackslash(t, '"'); RenderWith(AsWritten, st)
      else RenderWith(AsWritten, st)
    case _ => RenderWith(AsWritten, st)
  }

  /** A statement's line with the corrected escaping, which doubles backslashes too. */
  function CorrectedRender(st: Stmt): string
  {
    RenderWith(Corrected, st)
  }

  /** The script text: every statement rendered on a line of its own. */
  function Script(ss: seq<Stmt>): string
  {
    if ss == [] then "" else Script(ss[..|ss| - 1]) + Render(ss[|ss| - 1]) + "\n"
  }

  lemma {:induction false} ScriptAppend(a: seq<Stmt>, b: seq<Stmt>)
    ensures Script(a + b) == Script(a) + Script(b)
  {
    if b != [] {
      ScriptAppend(a, b[..|b| - 1]);
      assert (a + b)[..|a + b| - 1] == a + b[..|b| - 1];
      var b', last := b[..|b| - 1], b[|b| - 1];
      assert (a + b)[|a + b| - 1] == last;
      calc {
        Script(a + b);
        Script(a + b') + Render(last) + "\n";
        Script(a) + Script(b') + Render(last) + "\n";
        { Associative(Script(a), Script(b'), Render(last));
          Associative(Script(a), Script(b') + Render(last), "\n"); }
        Script(a) + (Script(b') + Render(last) + "\n");
        Script(a) + Script(b);
      }
    } else {
      assert a + b == a;
    }
  }

  lemma Associative(x: string, y: string, z: string)
    ensures x + y + z == x + (y + z)
  {
  }

  lemma SnocAssociative<T>(a: seq<T>, b: seq<T>, x: T)
    ensures a + b + [x] == a + (b + [x])
  {
  }

  lemma DefinitionsStep(cs: seq<Character>, i: nat)
    requires i < |cs|
    ensures Definitions(cs[..i + 1]) == Definitions(cs[..i]) + [Define(RenpyId(cs[i].id), cs[i].name)]
  {
    assert cs[..i + 1][..i] == cs[..i];
  }

  lemma ExpressionImagesStep(charTag: string, es: seq<Expression>, j: nat)
    requires j < |es|
    ensures ExpressionImages(charTag, es[..j + 1]) == ExpressionImages(charTag, es[..j]) + [CharacterImage(charTag, RenpyId(es[j].name))]
  {
    assert es[..j + 1][..j] == es[..j];
  }

  lemma CharacterImagesStep(cs: seq<Character>, i: nat)
    requires i < |cs|
    ensures CharacterImages(cs[..i + 1]) == CharacterImages(cs[..i]) + ExpressionImages(RenpyId(cs[i].id), cs[i].expressions) + [Blank]
  {
    assert cs[..i + 1][..i] == cs[..i];
  }

  lemma BackgroundImagesStep(scenes: seq<Scene>, i: nat)
    requires i < |scenes|
    ensures BackgroundImages(scenes[..i + 1]) == BackgroundImages(scenes[..i]) + [BackgroundImage(BgTag(scenes[i]))]
  {
    assert scenes[..i + 1][..i] == scenes[..i];
  }

  lemma HidesStep(cs: seq<Character>, i: nat)
    requires i < |cs|
    ensures Hides(cs[..i + 1]) == Hides(cs[..i]) + [Hide(RenpyId(cs[i].id))]
  {
    assert cs[..i + 1][..i] == cs[..i];
  }

  lemma StageShowsStep(cs: seq<Character>, ids: seq<string>, i: nat)
    requires i < |ids|
    ensures StageShows(cs, ids[..i + 1]) == StageShows(cs, ids[..i]) + StageShow(cs, ids[i], i)
  {
    assert ids[..i + 1][..i] == ids[..i];
  }

  lemma DialogueStep(cs: seq<Character>, lines: seq<DialogueLine>, i: nat)
    requires i < |lines|
    ensures DialogueStatements(cs, lines[..i + 1]) == DialogueStatements(cs, lines[..i]) + LineStatements(cs, lines[i])
  {
    assert lines[..i + 1][..i] == lines[..i];
  }

  lemma MenuArmsStep(choices: seq<Choice>, i: nat)
    requires i < |choices|
    ensures MenuArms(choices[..i + 1]) == MenuArms(choices[..i]) + [MenuItem(choices[i].text)] + [Jump(RenpyId(choices[i].nextSceneId), true)]
  {
    assert choices[..i + 1][..i] == choices[..i];
  }

  lemma SceneBlocksStep(vn: Novel, scenes: seq<Scene>, i: nat)
    requires i < |scenes|
    ensures SceneBlocks(vn, scenes[..i + 1]) == SceneBlocks(vn, scenes[..i]) + SceneBlock(vn, scenes[i])
  {
    assert scenes[..i + 1][..i] == scenes[..i];
  }

  lemma SceneBlockParts(vn: Novel, s: Scene, done: seq<Stmt>, opening: seq<Stmt>, hidden: seq<Stmt>,
                        staged: seq<Stmt>, spoken: seq<Stmt>, done': seq<Stmt>)
    requires opening == done + [Label(RenpyId(s.id)), Blank, SceneBg(BgTag(s)), Blank]
    requires hidden == opening + Hides(vn.characters)
    requires staged == hidden + Staging(vn.characters, s.presentCharacterIds)
    requires spoken == staged + DialogueStatements(vn.characters, s.dialogue)
    requires done' == spoken + Closing(s) + [Blank]
    ensures done' == done + SceneBlock(vn, s)
  {
    var h := [Label(RenpyId(s.id)), Blank, SceneBg(BgTag(s)), Blank];
    var a := Hides(vn.characters);
    var b := Staging(vn.characters, s.presentCharacterIds);
    var c := DialogueStatements(vn.characters, s.dialogue);
    var d := Closing(s);
    ConcatAssociative(done, h, a);
    ConcatAssociative(done, h + a, b);
    ConcatAssociative(done, h + a + b, c);
    ConcatAssociative(done, h + a + b + c, d);
    ConcatAssociative(done, h + a + b + c + d, [Blank]);
  }

  lemma Whole<T>(s: seq<T>)
    ensures s[..|s|] == s
  {
  }

  lemma SnocTwiceAssociative<T>(a: seq<T>, b: seq<T>, x: T, y: T)
    ensures a + b + [x] + [y] == a + (b + [x] + [y])
  {
  }

  lemma SnocTwo<T>(a: seq<T>, x: T, y: T)
    ensures a + [x] + [y] == a + [x, y]
  {
  }

  lemma SnocThree<T>(a: seq<T>, x: T, y: T, z: T)
    ensures a + [x] + [y] + [z] == a + [x, y, z]
  {
  }

  lemma SnocFour<T>(a: seq<T>, w: T, x: T, y: T, z: T)
    ensures a + [w] + [x] + [y] + [z] == a + [w, x, y, z]
  {
  }

  lemma ConcatAssociative<T>(a: seq<T>, b: seq<T>, c: seq<T>)
    ensures a + b + c == a + (b + c)
  {
  }

  lemma ScriptSnoc(a: seq<Stmt>, st: Stmt)
    ensures Script(a + [st]) == Script(a) + Render(st) + "\n"
  {
    assert (a + [st])[..|a|] == a;
  }

  // ---------------------------------------------------------------------------
  // The statements, section by section

  const Positions: seq<string> := ["at left", "at right", "at center", "at truecenter"]

  /** `positions[index % positions.length]`. */
  function Position(index: nat): string
  {
    Positions[index % |Positions|]
  }

  /** The background image tag of a scene, `toRenpyId('bg_' + id)`. */
  function BgTag(s: Scene): string
  {
    RenpyId("bg_" + s.id)
  }

  const Header: seq<Stmt> := [
    Verbatim("# Ren'Py script generated by Visual Novel Creator"),
    Verbatim("# Documentation: https://www.renpy.org/doc/html/"),
    Blank,
    Verbatim("## 1. Image Definitions")]

  /** One `image <charTag> <exprTag>` per expression of one character, in order. */
  function ExpressionImages(charTag: string, es: seq<Expression>): seq<Stmt>
  {
    if es == [] then []
    else ExpressionImages(charTag, es[..|es| - 1]) + [CharacterImage(charTag, RenpyId(es[|es| - 1].name))]
  }

  /** Each character's expression images, followed by a blank line. */
  function CharacterImages(cs: seq<Character>): seq<Stmt>
  {
    if cs == [] then []
    else
      var c := cs[|cs| - 1];
      CharacterImages(cs[..|cs| - 1]) + ExpressionImages(RenpyId(c.id), c.expressions) + [Blank]
  }

  /** One `image bg_<scene>` per scene, in order. */
  function BackgroundImages(scenes: seq<Scene>): seq<Stmt>
  {
    if scenes == [] then []
    else BackgroundImages(scenes[..|scenes| - 1]) + [BackgroundImage(BgTag(scenes[|scenes| - 1]))]
  }

  /** One `define <charVar> = Character('<name>')` per character, in order. */
  function Definitions(cs: seq<Character>): seq<Stmt>
  {
    if cs == [] then []
    else Definitions(cs[..|cs| - 1]) + [Define(RenpyId(cs[|cs| - 1].id), cs[|cs| - 1].name)]
  }

  /** Everything before `## 3. The game script`. */
  function FrontMatter(vn: Novel): seq<Stmt>
  {
    Header + CharacterImages(vn.characters) + BackgroundImages(vn.scenes)
    + [Blank, Verbatim("## 2. Character Definitions")] + Definitions(vn.characters) + [Blank]
  }

  /** The entry point: `label start:` jumping to the start scene, which is not checked to exist. */
  function Entry(vn: Novel): seq<Stmt>
  {
    [Verbatim("## 3. The game script"), Label("start"), Jump(RenpyId(vn.startSceneId), false), Blank]
  }

  /** A `hide` for every character of the novel. */
  function Hides(cs: seq<Character>): seq<Stmt>
  {
    if cs == [] then []
    else Hides(cs[..|cs| - 1]) + [Hide(RenpyId(cs[|cs| - 1].id))]
  }

  /** `find(e => e.name.toLowerCase() === '중립')`. */
  function LowerNeutralExpression(es: seq<Expression>): (r: Option<Expression>)
  {
    if es == [] then None
    else if AsciiLower(es[0].name) == Neutral then Some(es[0])
    else LowerNeutralExpression(es[1..])
  }

  /** The stage expression of a present character: the neutral one, else the first. */
  function RenpyNeutral(es: seq<Expression>): (r: Option<Expression>)
  {
    match LowerNeutralExpression(es)
    case Some(e) => Some(e)
    case None => if es == [] then None else Some(es[0])
  }

  /** The `show` for the present id at `index`, when it resolves and has an expression. */
  function StageShow(cs: seq<Character>, id: string, index: nat): seq<Stmt>
  {
    match FindCharacter(cs, id)
    case None => []
    case Some(c) =>
      match RenpyNeutral(c.expressions)
      case None => []
      case Some(e) => [ShowAt(RenpyId(c.id), RenpyId(e.name), Position(index))]
  }

  /** The stage shows for `ids`; the position index counts the unresolved ids too. */
  function StageShows(cs: seq<Character>, ids: seq<string>): seq<Stmt>
  {
    if ids == [] then []
    else StageShows(cs, ids[..|ids| - 1]) + StageShow(cs, ids[|ids| - 1], |ids| - 1)
  }

  function Staging(cs: seq<Character>, ids: seq<string>): seq<Stmt>
  {
    if |ids| > 0 then StageShows(cs, ids) + [Blank] else []
  }

  /** The `show char expr` before a line whose speaker and expression are both set and resolve. */
  function ExpressionChange(cs: seq<Character>, line: DialogueLine): seq<Stmt>
  {
    if Truthy(line.characterId) && Truthy(line.expressionId) then
      match FindCharacter(cs, line.characterId.value)
      case None => []
      case Some(c) =>
        match FindExpression(c.expressions, line.expressionId.value)
        case None => []
        case Some(e) => [Show(RenpyId(c.id), RenpyId(e.name))]
    else []
  }

  /** The say statement of a line; a set speaker that does not resolve says nothing. */
  function Speech(cs: seq<Character>, line: DialogueLine): seq<Stmt>
  {
    if Truthy(line.characterId) then
      match FindCharacter(cs, line.characterId.value)
      case None => []
      case Some(c) => [Say(Some(RenpyId(c.id)), line.text)]
    else [Say(None, line.text)]
  }

  function LineStatements(cs: seq<Character>, line: DialogueLine): seq<Stmt>
  {
    ExpressionChange(cs, line) + Speech(cs, line)
  }

  function DialogueStatements(cs: seq<Character>, lines: seq<DialogueLine>): seq<Stmt>
  {
    if lines == [] then []
    else DialogueStatements(cs, lines[..|lines| - 1]) + LineStatements(cs, lines[|lines| - 1])
  }

  /** One menu arm per choice, in order, each jumping to the target's label (which may not exist). */
  function MenuArms(choices: seq<Choice>): seq<Stmt>
  {
    if choices == [] then []
    else
      var c := choices[|choices| - 1];
      MenuArms(choices[..|choices| - 1]) + [MenuItem(c.text)] + [Jump(RenpyId(c.nextSceneId), true)]
  }

  /** A menu when the scene has choices, otherwise an ending comment and `return`. */
  function Closing(s: Scene): seq<Stmt>
  {
    if |s.choices| > 0 then [Blank, Menu] + MenuArms(s.choices)
    else [Blank, Verbatim("    # This is an ending scene."), Return]
  }

  function SceneBlock(vn: Novel, s: Scene): seq<Stmt>
  {
    [Label(RenpyId(s.id)), Blank, SceneBg(BgTag(s)), Blank]
    + Hides(vn.characters)
    + Staging(vn.characters, s.presentCharacterIds)
    + DialogueStatements(vn.characters, s.dialogue)
    + Closing(s)
    + [Blank]
  }

  function SceneBlocks(vn: Novel, scenes: seq<Scene>): seq<Stmt>
  {
    if scenes == [] then []
    else SceneBlocks(vn, scenes[..|scenes| - 1]) + SceneBlock(vn, scenes[|scenes| - 1])
  }

  /** The whole script, statement by statement. */
  function RenpyStatements(vn: Novel): seq<Stmt>
  {
    FrontMatter(vn) + Entry(vn) + SceneBlocks(vn, vn.scenes)
  }

  // ---------------------------------------------------------------------------
  // The generator

  /**
   * `script += <line> + '\n'`. The ghost `done` is the list of statements written so far;
   * every append keeps `script == Script(done)`.
   */
  method Emit(script: string, ghost done: seq<Stmt>, st: Stmt) returns (script': string, ghost done': seq<Stmt>)
    requires script == Script(done)
    ensures done' == done + [st]
    ensures script' == Script(done')
  {
    script' := script + Render(st) + "\n";
    done' := done + [st];
    ScriptSnoc(done, st);
  }

  /** `exportToRenpy`. */
  method ExportToRenpy(vn: Novel) returns (script: string)
    ensures script == Script(RenpyStatements(vn))
  {
    ghost var done;
    script, done := EmitFrontMatter(vn);
    script, done := EmitEntry(vn, script, done);
    script, done := EmitScenes(vn, script, done);
  }

  /** Sections 1 and 2: the image and character definitions. */
  method EmitFrontMatter(vn: Novel) returns (script: string, ghost done: seq<Stmt>)
    ensures done == FrontMatter(vn)
    ensures script == Script(done)
  {
    script, done := EmitHeader();
    script, done := EmitImages(vn, script, done);
    script, done := EmitDefinitions(vn, script, done);
  }

  /** `vn.scenes.forEach(...)`: one block per scene, in order. */
  method EmitScenes(vn: Novel, script: string, ghost done: seq<Stmt>) returns (script': string, ghost done': seq<Stmt>)
    requires script == Script(done)
    ensures done' == done + SceneBlocks(vn, vn.scenes)
    ensures script' == Script(done')
  {
    script', done' := script, done;
    var i := 0;
    while i < |vn.scenes|
      invariant 0 <= i <= |vn.scenes|
      invariant done' == done + SceneBlocks(vn, vn.scenes[..i])
      invariant script' == Script(done')
    {
      SceneBlocksStep(vn, vn.scenes, i);
      ConcatAssociative(done, SceneBlocks(vn, vn.scenes[..i]), SceneBlock(vn, vn.scenes[i]));
      script', done' := EmitScene(vn, vn.scenes[i], script', done');
      i := i + 1;
    }
    Whole(vn.scenes);
  }

  /** The two comment lines opening the script and the first section header. */
  method EmitHeader() returns (script: string, ghost done: seq<Stmt>)
    ensures done == Header
    ensures script == Script(done)
  {
    script, done := "", [];
    script, done := Emit(script, done, Header[0]);
    script, done := Emit(script, done, Header[1]);
    script, done := Emit(script, done, Header[2]);
    script, done := Emit(script, done, Header[3]);
    SnocFour([], Header[0], Header[1], Header[2], Header[3]);
  }

  /** Section 1: the character images, then the background images. */
  method EmitImages(vn: Novel, script: string, ghost done: seq<Stmt>) returns (script': string, ghost done': seq<Stmt>)
    requires script == Script(done)
    ensures done' == done + CharacterImages(vn.characters) + BackgroundImages(vn.scenes)
    ensures script' == Script(done')
  {
    script', done' := EmitCharacterImages(vn.characters, script, done);
    script', done' := EmitBackgroundImages(vn.scenes, script', done');
  }

  /** `characters.forEach(...)`: each character's expression images and a blank line after them. */
  method EmitCharacterImages(cs: seq<Character>, script: string, ghost done: seq<Stmt>) returns (script': string, ghost done': seq<Stmt>)
    requires script == Script(done)
    ensures done' == done + CharacterImages(cs)
    ensures script' == Script(done')
  {
    script', done' := script, done;
    var i := 0;
    while i < |cs|
      invariant 0 <= i <= |cs|
      invariant done' == done + CharacterImages(cs[..i])
      invariant script' == Script(done')
    {
      var charTag := RenpyId(cs[i].id);
      CharacterImagesStep(cs, i);
      ConcatAssociative(done, CharacterImages(cs[..i]), ExpressionImages(charTag, cs[i].expressions));
      ConcatAssociative(done, CharacterImages(cs[..i]) + ExpressionImages(charTag, cs[i].expressions), [Blank]);
      script', done' := EmitExpressionImages(charTag, cs[i].expressions, script', done');
      script', done' := Emit(script', done', Blank);
      i := i + 1;
    }
    Whole(cs);
  }

  /** `character.expressions.forEach(...)`: one `image` per expression of one character. */
  method EmitExpressionImages(charTag: string, es: seq<Expression>, script: string, ghost done: seq<Stmt>)
    returns (script': string, ghost done': seq<Stmt>)
    requires script == Script(done)
    ensures done' == done + ExpressionImages(charTag, es)
    ensures script' == Script(done')
  {
    script', done' := script, done;
    var j := 0;
    while j < |es|
      invariant 0 <= j <= |es|
      invariant done' == done + ExpressionImages(charTag, es[..j])
      invariant script' == Script(done')
    {
      var exprTag := RenpyId(es[j].name);
      ExpressionImagesStep(charTag, es, j);
      ConcatAssociative(done, ExpressionImages(charTag, es[..j]), [CharacterImage(charTag, exprTag)]);
      script', done' := Emit(script', done', CharacterImage(charTag, exprTag));
      j := j + 1;
    }
    Whole(es);
  }

  /** `scenes.forEach(...)`: one background `image` per scene. */
  method EmitBackgroundImages(scenes: seq<Scene>, script: string, ghost done: seq<Stmt>) returns (script': string, ghost done': seq<Stmt>)
    requires script == Script(done)
    ensures done' == done + BackgroundImages(scenes)
    ensures script' == Script(done')
  {
    script', done' := script, done;
    var i := 0;
    while i < |scenes|
      invariant 0 <= i <= |scenes|
      invariant done' == done + BackgroundImages(scenes[..i])
      invariant script' == Script(done')
    {
      var bgTag := RenpyId("bg_" + scenes[i].id);
      BackgroundImagesStep(scenes, i);
      ConcatAssociative(done, BackgroundImages(scenes[..i]), [BackgroundImage(bgTag)]);
      script', done' := Emit(script', done', BackgroundImage(bgTag));
      i := i + 1;
    }
    Whole(scenes);
  }

  /** Section 2: one `define` per character, between the blank line and header before and the blank line after. */
  method EmitDefinitions(vn: Novel, script: string, ghost done: seq<Stmt>) returns (script': string, ghost done': seq<Stmt>)
    requires script == Script(done)
    ensures done' == done + [Blank, Verbatim("## 2. Character Definitions")] + Definitions(vn.characters) + [Blank]
    ensures script' == Script(done')
  {
    script', done' := Emit(script, done, Blank);
    script', done' := Emit(script', done', Verbatim("## 2. Character Definitions"));
    ghost var defined := done';
    SnocTwo(done, Blank, Verbatim("## 2. Character Definitions"));
    var i := 0;
    while i < |vn.characters|
      invariant 0 <= i <= |vn.characters|
      invariant done' == defined + Definitions(vn.characters[..i])
      invariant script' == Script(done')
    {
      var charVar := RenpyId(vn.characters[i].id);
      DefinitionsStep(vn.characters, i);
      SnocAssociative(defined, Definitions(vn.characters[..i]), Define(charVar, vn.characters[i].name));
      script', done' := Emit(script', done', Define(charVar, vn.characters[i].name));
      i := i + 1;
    }
    Whole(vn.characters);
    script', done' := Emit(script', done', Blank);
    ConcatAssociative(done, [Blank, Verbatim("## 2. Character Definitions")], Definitions(vn.characters));
  }

  /** Section 3 opens with `label start:` and a jump to the start scene's label. */
  method EmitEntry(vn: Novel, script: string, ghost done: seq<Stmt>) returns (script': string, ghost done': seq<Stmt>)
    requires script == Script(done)
    ensures done' == done + Entry(vn)
    ensures script' == Script(done')
  {
    script', done' := Emit(script, done, Verbatim("## 3. The game script"));
    script', done' := Emit(script', done', Label("start"));
    script', done' := Emit(script', done', Jump(RenpyId(vn.startSceneId), false));
    script', done' := Emit(script', done', Blank);
    SnocFour(done, Verbatim("## 3. The game script"), Label("start"), Jump(RenpyId(vn.startSceneId), false), Blank);
  }

  /** The body of `vn.scenes.forEach(scene => ...)`: the block of one scene. */
  method EmitScene(vn: Novel, scene: Scene, script: string, ghost done: seq<Stmt>) returns (script': string, ghost done': seq<Stmt>)
    requires script == Script(done)
    ensures done' == done + SceneBlock(vn, scene)
    ensures script' == Script(done')
  {
    script', done' := Emit(script, done, Label(RenpyId(scene.id)));
    script', done' := Emit(script', done', Blank);
    script', done' := Emit(script', done', SceneBg(RenpyId("bg_" + scene.id)));
    script', done' := Emit(script', done', Blank);
    ghost var opening := done';
    SnocFour(done, Label(RenpyId(scene.id)), Blank, SceneBg(BgTag(scene)), Blank);
    script', done' := EmitHides(vn.characters, script', done');
    ghost var hidden := done';
    script', done' := EmitStaging(vn.characters, scene.presentCharacterIds, script', done');
    ghost var staged := done';
    script', done' := EmitDialogue(vn.characters, scene.dialogue, script', done');
    ghost var spoken := done';
    script', done' := EmitClosing(scene, script', done');
    script', done' := Emit(script', done', Blank);
    SceneBlockParts(vn, scene, done, opening, hidden, staged, spoken, done');
  }

  /** `characters.forEach(...)`: a `hide` for every character, present or not. */
  method EmitHides(cs: seq<Character>, script: string, ghost done: seq<Stmt>) returns (script': string, ghost done': seq<Stmt>)
    requires script == Script(done)
    ensures done' == done + Hides(cs)
    ensures script' == Script(done')
  {
    script', done' := script, done;
    var i := 0;
    while i < |cs|
      invariant 0 <= i <= |cs|
      invariant done' == done + Hides(cs[..i])
      invariant script' == Script(done')
    {
      HidesStep(cs, i);
      ConcatAssociative(done, Hides(cs[..i]), [Hide(RenpyId(cs[i].id))]);
      script', done' := Emit(script', done', Hide(RenpyId(cs[i].id)));
      i := i + 1;
    }
    Whole(cs);
  }

  /** `scene.dialogue.forEach(...)`: the statements of every line in order. */
  method EmitDialogue(cs: seq<Character>, lines: seq<DialogueLine>, script: string, ghost done: seq<Stmt>)
    returns (script': string, ghost done': seq<Stmt>)
    requires script == Script(done)
    ensures done' == done + DialogueStatements(cs, lines)
    ensures script' == Script(done')
  {
    script', done' := script, done;
    var i := 0;
    while i < |lines|
      invariant 0 <= i <= |lines|
      invariant done' == done + DialogueStatements(cs, lines[..i])
      invariant script' == Script(done')
    {
      DialogueStep(cs, lines, i);
      ConcatAssociative(done, DialogueStatements(cs, lines[..i]), LineStatements(cs, lines[i]));
      script', done' := EmitLine(cs, lines[i], script', done');
      i := i + 1;
    }
    Whole(lines);
  }

  /** The `show`s for the characters present when the scene opens, and a blank line after them. */
  method EmitStaging(cs: seq<Character>, ids: seq<string>, script: string, ghost done: seq<Stmt>) returns (script': string, ghost done': seq<Stmt>)
    requires script == Script(done)
    ensures done' == done + Staging(cs, ids)
    ensures script' == Script(done')
  {
    script', done' := script, done;
    if |ids| > 0 {
      var i := 0;
      while i < |ids|
        invariant 0 <= i <= |ids|
        invariant done' == done + StageShows(cs, ids[..i])
        invariant script' == Script(done')
      {
        StageShowsStep(cs, ids, i);
        ConcatAssociative(done, StageShows(cs, ids[..i]), StageShow(cs, ids[i], i));
        script', done' := EmitStageShow(cs, ids[i], i, script', done');
        i := i + 1;
      }
      Whole(ids);
      script', done' := Emit(script', done', Blank);
    }
  }

  /** The body of `presentCharacterIds.forEach((charId, index) => ...)`. */
  method EmitStageShow(cs: seq<Character>, charId: string, index: nat, script: string, ghost done: seq<Stmt>)
    returns (script': string, ghost done': seq<Stmt>)
    requires script == Script(done)
    ensures done' == done + StageShow(cs, charId, index)
    ensures script' == Script(done')
  {
    script', done' := script, done;
    var character := FindCharacter(cs, charId);
    if character.Some? {
      var charTag := RenpyId(character.value.id);
      var neutralExpr := RenpyNeutral(character.value.expressions);
      if neutralExpr.Some? {
        var exprTag := RenpyId(neutralExpr.value.name);
        var position := Positions[index % |Positions|];
        script', done' := Emit(script', done', ShowAt(charTag, exprTag, position));
      }
    }
  }

  /** A menu with one arm per choice, or the ending comment and `return`. */
  method EmitClosing(scene: Scene, script: string, ghost done: seq<Stmt>) returns (script': string, ghost done': seq<Stmt>)
    requires script == Script(done)
    ensures done' == done + Closing(scene)
    ensures script' == Script(done')
  {
    if |scene.choices| > 0 {
      script', done' := Emit(script, done, Blank);
      script', done' := Emit(script', done', Menu);
      SnocTwo(done, Blank, Menu);
      ghost var menu := done';
      script', done' := EmitMenuArms(scene.choices, script', done');
      ConcatAssociative(done, [Blank, Menu], MenuArms(scene.choices));
    } else {
      script', done' := Emit(script, done, Blank);
      script', done' := Emit(script', done', Verbatim("    # This is an ending scene."));
      script', done' := Emit(script', done', Return);
      SnocThree(done, Blank, Verbatim("    # This is an ending scene."), Return);
    }
  }

  /** `scene.choices.forEach(...)`: a menu item and its jump per choice. */
  method EmitMenuArms(choices: seq<Choice>, script: string, ghost done: seq<Stmt>) returns (script': string, ghost done': seq<Stmt>)
    requires script == Script(done)
    ensures done' == done + MenuArms(choices)
    ensures script' == Script(done')
  {
    script', done' := script, done;
    var i := 0;
    while i < |choices|
      invariant 0 <= i <= |choices|
      invariant done' == done + MenuArms(choices[..i])
      invariant script' == Script(done')
    {
      var choice := choices[i];
      var nextSceneLabel := RenpyId(choice.nextSceneId);
      MenuArmsStep(choices, i);
      SnocTwiceAssociative(done, MenuArms(choices[..i]), MenuItem(choice.text), Jump(nextSceneLabel, true));
      script', done' := Emit(script', done', MenuItem(choice.text));
      script', done' := Emit(script', done', Jump(nextSceneLabel, true));
      i := i + 1;
    }
    Whole(choices);
  }

  /** The body of `scene.dialogue.forEach(line => ...)`: an optional `show`, then the say statement. */
  method EmitLine(cs: seq<Character>, line: DialogueLine, script: string, ghost done: seq<Stmt>) returns (script': string, ghost done': seq<Stmt>)
    requires script == Script(done)
    ensures done' == done + LineStatements(cs, line)
    ensures script' == Script(done')
  {
    script', done' := EmitExpressionChange(cs, line, script, done);
    ghost var shown := done';
    script', done' := EmitSpeech(cs, line, script', done');
    ConcatAssociative(done, ExpressionChange(cs, line), Speech(cs, line));
  }

  method EmitExpressionChange(cs: seq<Character>, line: DialogueLine, script: string, ghost done: seq<Stmt>) returns (script': string, ghost done': seq<Stmt>)
    requires script == Script(done)
    ensures done' == done + ExpressionChange(cs, line)
    ensures script' == Script(done')
  {
    script', done' := script, done;
    if Truthy(line.characterId) && Truthy(line.expressionId) {
      var character := FindCharacter(cs, line.characterId.value);
      if character.Some? {
        var expr := FindExpression(character.value.expressions, line.expressionId.value);
        if expr.Some? {
          var charTag := RenpyId(character.value.id);
          var exprTag := RenpyId(expr.value.name);
          script', done' := Emit(script', done', Show(charTag, exprTag));
        }
      }
    }
  }

  method EmitSpeech(cs: seq<Character>, line: DialogueLine, script: string, ghost done: seq<Stmt>) returns (script': string, ghost done': seq<Stmt>)
    requires script == Script(done)
    ensures done' == done + Speech(cs, line)
    ensures script' == Script(done')
  {
    script', done' := script, done;
    if Truthy(line.characterId) {
      var character := FindCharacter(cs, line.characterId.value);
      if character.Some? {
        var charVar := RenpyId(character.value.id);
        script', done' := Emit(script', done', Say(Some(charVar), line.text));
      }
    } else {
      script', done' := Emit(script', done', Say(None, line.text));
    }
  }
}

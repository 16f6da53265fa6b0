/**
 * What the generated Ren'Py script guarantees, stated over `RenpyExport.RenpyStatements`:
 * which labels, images, definitions, returns, menus and jumps it holds and in which order,
 * that every name it uses is declared, that its literals read back as the story's text,
 * and that its portraits are the ones the in-editor player shows.
 */
module RenpyProperties {
  import opened Wrappers
  import opened Model
  import opened RenpyText
  import opened RenpyExport
  import Playback

  /** The kind of a statement, one per constructor of `Stmt`. */
  datatype Kind =
    | VerbatimKind | CharacterImageKind | BackgroundImageKind | DefineKind | LabelKind | JumpKind
    | SceneBgKind | HideKind | ShowAtKind | ShowKind | SayKind | MenuKind | MenuItemKind | ReturnKind

  function KindOf(st: Stmt): Kind
  {
    match st
    case Verbatim(_) => VerbatimKind
    case CharacterImage(_, _) => CharacterImageKind
    case BackgroundImage(_) => BackgroundImageKind
    case Define(_, _) => DefineKind
    case Label(_) => LabelKind
    case Jump(_, _) => JumpKind
    case SceneBg(_) => SceneBgKind
    case Hide(_) => HideKind
    case ShowAt(_, _, _) => ShowAtKind
    case Show(_, _) => ShowKind
    case Say(_, _) => SayKind
    case Menu => MenuKind
    case MenuItem(_) => MenuItemKind
    case Return => ReturnKind
  }

  /** The statements of kind `k`, in script order. */
  function Only(ss: seq<Stmt>, k: Kind): (r: seq<Stmt>)
    ensures |r| <= |ss|
  {
    if ss == [] then []
    else Only(ss[..|ss| - 1], k) + (if KindOf(ss[|ss| - 1]) == k then [ss[|ss| - 1]] else [])
  }

  /** Every statement of `ss` has kind `a` or kind `b`. */
  predicate AllIn(ss: seq<Stmt>, a: Kind, b: Kind)
  {
    forall st :: st in ss ==> KindOf(st) == a || KindOf(st) == b
  }

  lemma {:induction false} OnlyAppend(a: seq<Stmt>, b: seq<Stmt>, k: Kind)
    ensures Only(a + b, k) == Only(a, k) + Only(b, k)
  {
    if b == [] {
      assert a + b == a;
    } else {
      var b', last := b[..|b| - 1], b[|b| - 1];
      OnlyAppend(a, b', k);
      assert (a + b)[..|a + b| - 1] == a + b';
      assert (a + b)[|a + b| - 1] == last;
      ConcatAssociative(Only(a, k), Only(b', k), if KindOf(last) == k then [last] else []);
    }
  }

  lemma {:induction false} OnlyNone(ss: seq<Stmt>, a: Kind, b: Kind, k: Kind)
    requires AllIn(ss, a, b) && k != a && k != b
    ensures Only(ss, k) == []
  {
    if ss != [] {
      assert ss[|ss| - 1] in ss;
      OnlyNone(ss[..|ss| - 1], a, b, k);
    }
  }

  lemma {:induction false} OnlyAll(ss: seq<Stmt>, k: Kind)
    requires AllIn(ss, k, k)
    ensures Only(ss, k) == ss
  {
    if ss != [] {
      assert ss[|ss| - 1] in ss;
      OnlyAll(ss[..|ss| - 1], k);
      assert ss[..|ss| - 1] + [ss[|ss| - 1]] == ss;
    }
  }

  /** `[st]` when `st` has kind `k`, nothing otherwise. */
  function Pick(st: Stmt, k: Kind): seq<Stmt>
  {
    if KindOf(st) == k then [st] else []
  }

  lemma OnlyOne(st: Stmt, k: Kind)
    ensures Only([st], k) == Pick(st, k)
  {
    assert [st][..0] == [];
  }

  // ---------------------------------------------------------------------------
  // The kinds each section is made of

  lemma {:induction false} ExpressionImagesKinds(charTag: string, es: seq<Expression>)
    ensures AllIn(ExpressionImages(charTag, es), CharacterImageKind, CharacterImageKind)
  {
    if es != [] {
      ExpressionImagesKinds(charTag, es[..|es| - 1]);
    }
  }

  lemma {:induction false} CharacterImagesKinds(cs: seq<Character>)
    ensures AllIn(CharacterImages(cs), CharacterImageKind, VerbatimKind)
  {
    if cs != [] {
      var c := cs[|cs| - 1];
      CharacterImagesKinds(cs[..|cs| - 1]);
      ExpressionImagesKinds(RenpyId(c.id), c.expressions);
    }
  }

  lemma {:induction false} BackgroundImagesKinds(scenes: seq<Scene>)
    ensures AllIn(BackgroundImages(scenes), BackgroundImageKind, BackgroundImageKind)
  {
    if scenes != [] {
      BackgroundImagesKinds(scenes[..|scenes| - 1]);
    }
  }

  lemma {:induction false} DefinitionsKinds(cs: seq<Character>)
    ensures AllIn(Definitions(cs), DefineKind, DefineKind)
  {
    if cs != [] {
      DefinitionsKinds(cs[..|cs| - 1]);
    }
  }

  lemma {:induction false} HidesKinds(cs: seq<Character>)
    ensures AllIn(Hides(cs), HideKind, HideKind)
  {
    if cs != [] {
      HidesKinds(cs[..|cs| - 1]);
    }
  }

  lemma StageShowKinds(cs: seq<Character>, id: string, index: nat)
    ensures AllIn(StageShow(cs, id, index), ShowAtKind, ShowAtKind)
  {
  }

  lemma {:induction false} StageShowsKinds(cs: seq<Character>, ids: seq<string>)
    ensures AllIn(StageShows(cs, ids), ShowAtKind, ShowAtKind)
  {
    if ids != [] {
      StageShowsKinds(cs, ids[..|ids| - 1]);
      StageShowKinds(cs, ids[|ids| - 1], |ids| - 1);
    }
  }

  lemma StagingKinds(cs: seq<Character>, ids: seq<string>)
    ensures AllIn(Staging(cs, ids), ShowAtKind, VerbatimKind)
  {
    StageShowsKinds(cs, ids);
  }

  lemma LineKinds(cs: seq<Character>, line: DialogueLine)
    ensures AllIn(ExpressionChange(cs, line), ShowKind, ShowKind)
    ensures AllIn(Speech(cs, line), SayKind, SayKind)
  {
    ExpressionChangeKinds(cs, line);
    SpeechKinds(cs, line);
  }

  lemma ExpressionChangeKinds(cs: seq<Character>, line: DialogueLine)
    ensures AllIn(ExpressionChange(cs, line), ShowKind, ShowKind)
  {
  }

  lemma SpeechKinds(cs: seq<Character>, line: DialogueLine)
    ensures AllIn(Speech(cs, line), SayKind, SayKind)
  {
  }

  lemma {:induction false} DialogueKinds(cs: seq<Character>, lines: seq<DialogueLine>)
    ensures AllIn(DialogueStatements(cs, lines), ShowKind, SayKind)
  {
    if lines != [] {
      DialogueKinds(cs, lines[..|lines| - 1]);
      LineKinds(cs, lines[|lines| - 1]);
    }
  }

  lemma {:induction false} MenuArmsKinds(choices: seq<Choice>)
    ensures AllIn(MenuArms(choices), MenuItemKind, JumpKind)
  {
    if choices != [] {
      MenuArmsKinds(choices[..|choices| - 1]);
    }
  }

  // ---------------------------------------------------------------------------
  // Filtering the script section by section

  /** The script's statements of one kind are those of the front matter, the entry and the scenes. */
  lemma StatementsOnly(vn: Novel, k: Kind)
    ensures Only(RenpyStatements(vn), k) == Only(FrontMatter(vn), k) + Only(Entry(vn), k) + Only(SceneBlocks(vn, vn.scenes), k)
  {
    OnlyAppend(FrontMatter(vn), Entry(vn), k);
    OnlyAppend(FrontMatter(vn) + Entry(vn), SceneBlocks(vn, vn.scenes), k);
  }

  lemma FrontMatterOnly(vn: Novel, k: Kind)
    requires k != VerbatimKind
    ensures Only(FrontMatter(vn), k)
      == Only(CharacterImages(vn.characters), k) + Only(BackgroundImages(vn.scenes), k) + Only(Definitions(vn.characters), k)
  {
    var c := [Blank, Verbatim("## 2. Character Definitions")];
    OnlyNone(Header, VerbatimKind, VerbatimKind, k);
    OnlyNone(c, VerbatimKind, VerbatimKind, k);
    OnlyOne(Blank, k);
    OnlySkipping(Header, CharacterImages(vn.characters), BackgroundImages(vn.scenes), c, Definitions(vn.characters), [Blank], k);
  }

  /** Filtering six pieces of which the first, the fourth and the last contribute nothing. */
  lemma OnlySkipping(a: seq<Stmt>, b: seq<Stmt>, c: seq<Stmt>, d: seq<Stmt>, e: seq<Stmt>, f: seq<Stmt>, k: Kind)
    requires Only(a, k) == [] && Only(d, k) == [] && Only(f, k) == []
    ensures Only(a + b + c + d + e + f, k) == Only(b, k) + Only(c, k) + Only(e, k)
  {
    OnlySix(a, b, c, d, e, f, k);
  }

  lemma EntryOnly(vn: Novel, k: Kind)
    requires k != VerbatimKind
    ensures Only(Entry(vn), k) == Pick(Label("start"), k) + Pick(Jump(RenpyId(vn.startSceneId), false), k)
  {
    var v, l, j := Verbatim("## 3. The game script"), Label("start"), Jump(RenpyId(vn.startSceneId), false);
    assert Entry(vn) == [v] + [l] + [j] + [Blank];
    OnlyAppend([v], [l], k);
    OnlyAppend([v] + [l], [j], k);
    OnlyAppend([v] + [l] + [j], [Blank], k);
    OnlyOne(v, k);
    OnlyOne(l, k);
    OnlyOne(j, k);
    OnlyOne(Blank, k);
  }

  lemma ClosingOnly(s: Scene, k: Kind)
    requires k != VerbatimKind
    ensures |s.choices| > 0 ==> Only(Closing(s), k) == Pick(Menu, k) + Only(MenuArms(s.choices), k)
    ensures |s.choices| == 0 ==> Only(Closing(s), k) == Pick(Return, k)
  {
    if |s.choices| > 0 {
      MenuClosingOnly(s, k);
    } else {
      EndingClosingOnly(s, k);
    }
  }

  lemma MenuClosingOnly(s: Scene, k: Kind)
    requires |s.choices| > 0 && k != VerbatimKind
    ensures Only(Closing(s), k) == Pick(Menu, k) + Only(MenuArms(s.choices), k)
  {
    var arms := MenuArms(s.choices);
    assert Closing(s) == [Blank] + [Menu] + arms;
    assert Only([Blank] + [Menu], k) == Pick(Menu, k) by {
      OnlyAppend([Blank], [Menu], k);
      OnlyOne(Blank, k);
      OnlyOne(Menu, k);
    }
    OnlyAppend([Blank] + [Menu], arms, k);
  }

  lemma EndingClosingOnly(s: Scene, k: Kind)
    requires |s.choices| == 0 && k != VerbatimKind
    ensures Only(Closing(s), k) == Pick(Return, k)
  {
    var ending := [Blank, Verbatim("    # This is an ending scene.")];
    assert Closing(s) == ending + [Return];
    OnlyAppend(ending, [Return], k);
    OnlyNone(ending, VerbatimKind, VerbatimKind, k);
    OnlyOne(Return, k);
  }

  lemma SceneBlockOnly(vn: Novel, s: Scene, k: Kind)
    requires k != VerbatimKind && k != SceneBgKind
    ensures Only(SceneBlock(vn, s), k)
      == Pick(Label(RenpyId(s.id)), k)
         + Only(Hides(vn.characters), k)
         + Only(Staging(vn.characters, s.presentCharacterIds), k)
         + Only(DialogueStatements(vn.characters, s.dialogue), k)
         + Only(Closing(s), k)
  {
    OpeningOnly(s, k);
    OnlyOne(Blank, k);
    OnlyLastSkipped([Label(RenpyId(s.id)), Blank, SceneBg(BgTag(s)), Blank], Hides(vn.characters),
                    Staging(vn.characters, s.presentCharacterIds), DialogueStatements(vn.characters, s.dialogue),
                    Closing(s), [Blank], k);
  }

  lemma OpeningOnly(s: Scene, k: Kind)
    requires k != VerbatimKind && k != SceneBgKind
    ensures Only([Label(RenpyId(s.id)), Blank, SceneBg(BgTag(s)), Blank], k) == Pick(Label(RenpyId(s.id)), k)
  {
    var l := Label(RenpyId(s.id));
    var o := [Blank, SceneBg(BgTag(s)), Blank];
    assert [l, Blank, SceneBg(BgTag(s)), Blank] == [l] + o;
    OnlyAppend([l], o, k);
    OnlyOne(l, k);
    OnlyNone(o, VerbatimKind, SceneBgKind, k);
  }

  /** Filtering six pieces of which the last contributes nothing. */
  lemma OnlyLastSkipped(a: seq<Stmt>, b: seq<Stmt>, c: seq<Stmt>, d: seq<Stmt>, e: seq<Stmt>, f: seq<Stmt>, k: Kind)
    requires Only(f, k) == []
    ensures Only(a + b + c + d + e + f, k) == Only(a, k) + Only(b, k) + Only(c, k) + Only(d, k) + Only(e, k)
  {
    OnlySix(a, b, c, d, e, f, k);
  }

  /** Filtering six concatenated pieces filters each piece. */
  lemma OnlySix(a: seq<Stmt>, b: seq<Stmt>, c: seq<Stmt>, d: seq<Stmt>, e: seq<Stmt>, f: seq<Stmt>, k: Kind)
    ensures Only(a + b + c + d + e + f, k) == Only(a, k) + Only(b, k) + Only(c, k) + Only(d, k) + Only(e, k) + Only(f, k)
  {
    OnlyAppend(a, b, k);
    OnlyAppend(a + b, c, k);
    OnlyAppend(a + b + c, d, k);
    OnlyAppend(a + b + c + d, e, k);
    OnlyAppend(a + b + c + d + e, f, k);
  }

  /** The kinds only the front matter holds. */
  predicate FrontOnly(k: Kind)
  {
    k == CharacterImageKind || k == BackgroundImageKind || k == DefineKind
  }

  /** The kinds a scene block holds outside its hides, staging, dialogue and menu, or not at all. */
  predicate Outer(k: Kind)
  {
    FrontOnly(k) || k == LabelKind || k == ReturnKind
  }

  lemma HidesNone(cs: seq<Character>, k: Kind)
    requires k != HideKind
    ensures Only(Hides(cs), k) == []
  {
    HidesKinds(cs);
    OnlyNone(Hides(cs), HideKind, HideKind, k);
  }

  lemma StagingNone(cs: seq<Character>, ids: seq<string>, k: Kind)
    requires k != ShowAtKind && k != VerbatimKind
    ensures Only(Staging(cs, ids), k) == []
  {
    StagingKinds(cs, ids);
    OnlyNone(Staging(cs, ids), ShowAtKind, VerbatimKind, k);
  }

  lemma DialogueNone(cs: seq<Character>, lines: seq<DialogueLine>, k: Kind)
    requires k != ShowKind && k != SayKind
    ensures Only(DialogueStatements(cs, lines), k) == []
  {
    DialogueKinds(cs, lines);
    OnlyNone(DialogueStatements(cs, lines), ShowKind, SayKind, k);
  }

  lemma MenuArmsNone(choices: seq<Choice>, k: Kind)
    requires k != MenuItemKind && k != JumpKind
    ensures Only(MenuArms(choices), k) == []
  {
    MenuArmsKinds(choices);
    OnlyNone(MenuArms(choices), MenuItemKind, JumpKind, k);
  }

  lemma ClosingFor(s: Scene, k: Kind)
    requires Outer(k)
    ensures Only(Closing(s), k) == if IsEnding(s) then Pick(Return, k) else []
  {
    assert k != VerbatimKind && k != MenuItemKind && k != JumpKind && k != MenuKind;
    if IsEnding(s) {
      EndingClosingOnly(s, k);
    } else {
      assert Pick(Menu, k) == [];
      MenuArmsNone(s.choices, k);
      MenuClosingOnly(s, k);
    }
  }

  /** A scene block holds its own label, a `return` when it is an ending, and nothing else of these kinds. */
  lemma SceneBlockFor(vn: Novel, s: Scene, k: Kind)
    requires Outer(k)
    ensures Only(SceneBlock(vn, s), k) == Pick(Label(RenpyId(s.id)), k) + (if IsEnding(s) then Pick(Return, k) else [])
  {
    assert k != VerbatimKind && k != SceneBgKind && k != HideKind && k != ShowAtKind && k != ShowKind && k != SayKind;
    ClosingFor(s, k);
    SceneBodyNone(vn, s, k);
    KeepFirstAndLast(Pick(Label(RenpyId(s.id)), k), Only(Hides(vn.characters), k),
                     Only(Staging(vn.characters, s.presentCharacterIds), k),
                     Only(DialogueStatements(vn.characters, s.dialogue), k), Only(Closing(s), k));
    SceneBlockOnly(vn, s, k);
  }

  /** Hides, staging and dialogue hold nothing of the kinds outside them. */
  lemma SceneBodyNone(vn: Novel, s: Scene, k: Kind)
    requires k != HideKind && k != ShowAtKind && k != VerbatimKind && k != ShowKind && k != SayKind
    ensures Only(Hides(vn.characters), k) == []
    ensures Only(Staging(vn.characters, s.presentCharacterIds), k) == []
    ensures Only(DialogueStatements(vn.characters, s.dialogue), k) == []
  {
    HidesNone(vn.characters, k);
    StagingNone(vn.characters, s.presentCharacterIds, k);
    DialogueNone(vn.characters, s.dialogue, k);
  }

  lemma KeepFirstAndLast(p: seq<Stmt>, h: seq<Stmt>, st: seq<Stmt>, d: seq<Stmt>, c: seq<Stmt>)
    requires h == [] && st == [] && d == []
    ensures p + h + st + d + c == p + c
  {
  }

  /** Nothing in the scene blocks is of a kind that only the front matter has. */
  lemma {:induction false} ScenesBodyNone(vn: Novel, scenes: seq<Scene>, k: Kind)
    requires FrontOnly(k)
    ensures Only(SceneBlocks(vn, scenes), k) == []
  {
    if scenes != [] {
      var prefix, last := scenes[..|scenes| - 1], scenes[|scenes| - 1];
      assert Pick(Label(RenpyId(last.id)), k) == [] && Pick(Return, k) == [];
      ScenesBodyNone(vn, prefix, k);
      SceneBlockFor(vn, last, k);
      OnlyAppend(SceneBlocks(vn, prefix), SceneBlock(vn, last), k);
    }
  }

  /** Outside the front matter, the script is the entry's label and jump, then the scene blocks. */
  lemma StatementsFor(vn: Novel, k: Kind)
    requires k != VerbatimKind && !FrontOnly(k)
    ensures Only(RenpyStatements(vn), k)
      == Pick(Label("start"), k) + Pick(Jump(RenpyId(vn.startSceneId), false), k) + Only(SceneBlocks(vn, vn.scenes), k)
  {
    FrontMatterNone(vn, k);
    EntryOnly(vn, k);
    StatementsOnly(vn, k);
    DropFrontPair(Only(RenpyStatements(vn), k), Only(FrontMatter(vn), k), Only(Entry(vn), k),
                  Only(SceneBlocks(vn, vn.scenes), k), Pick(Label("start"), k), Pick(Jump(RenpyId(vn.startSceneId), false), k));
  }

  lemma DropFrontPair(x: seq<Stmt>, a: seq<Stmt>, b: seq<Stmt>, c: seq<Stmt>, p: seq<Stmt>, q: seq<Stmt>)
    requires x == a + b + c && a == [] && b == p + q
    ensures x == p + q + c
  {
  }

  lemma FrontMatterNone(vn: Novel, k: Kind)
    requires k != VerbatimKind && !FrontOnly(k)
    ensures Only(FrontMatter(vn), k) == []
  {
    CharacterImagesKinds(vn.characters);
    OnlyNone(CharacterImages(vn.characters), CharacterImageKind, VerbatimKind, k);
    BackgroundImagesKinds(vn.scenes);
    OnlyNone(BackgroundImages(vn.scenes), BackgroundImageKind, BackgroundImageKind, k);
    DefinitionsKinds(vn.characters);
    OnlyNone(Definitions(vn.characters), DefineKind, DefineKind, k);
    FrontMatterOnly(vn, k);
  }

  /** The front matter's images and definitions are all the script has of them. */
  lemma StatementsFront(vn: Novel, k: Kind)
    requires FrontOnly(k)
    ensures Only(RenpyStatements(vn), k)
      == Only(CharacterImages(vn.characters), k) + Only(BackgroundImages(vn.scenes), k) + Only(Definitions(vn.characters), k)
  {
    ScenesBodyNone(vn, vn.scenes, k);
    EntryNone(vn, k);
    FrontMatterOnly(vn, k);
    DropEmpty(Only(FrontMatter(vn), k), Only(Entry(vn), k), Only(SceneBlocks(vn, vn.scenes), k));
    StatementsOnly(vn, k);
  }

  lemma EntryNone(vn: Novel, k: Kind)
    requires FrontOnly(k)
    ensures Only(Entry(vn), k) == []
  {
    assert Pick(Label("start"), k) == [] && Pick(Jump(RenpyId(vn.startSceneId), false), k) == [];
    EntryOnly(vn, k);
  }

  lemma DropEmpty(a: seq<Stmt>, b: seq<Stmt>, c: seq<Stmt>)
    requires b == [] && c == []
    ensures a + b + c == a
  {
  }

  lemma DropFront(a: seq<Stmt>, b: seq<Stmt>, c: seq<Stmt>)
    requires a == [] && b == []
    ensures a + b + c == c
  {
  }

  lemma DropFirst(x: seq<Stmt>, a: seq<Stmt>, b: seq<Stmt>, c: seq<Stmt>, b': seq<Stmt>, c': seq<Stmt>)
    requires x == a + b + c && a == [] && b == b' && c == c'
    ensures x == b' + c'
  {
  }

  lemma DropSecond(x: seq<Stmt>, a: seq<Stmt>, b: seq<Stmt>, c: seq<Stmt>, a': seq<Stmt>, c': seq<Stmt>)
    requires x == a + b + c && a == a' && b == [] && c == c'
    ensures x == a' + c'
  {
  }

  /** The filter of a whole list split as `front + back`, when the parts' filters are known. */
  lemma OnlySplit(whole: seq<Stmt>, front: seq<Stmt>, back: seq<Stmt>, k: Kind, f: seq<Stmt>, b: seq<Stmt>)
    requires whole == front + back && Only(front, k) == f && Only(back, k) == b
    ensures Only(whole, k) == f + b
  {
    OnlyAppend(front, back, k);
  }

  // ---------------------------------------------------------------------------
  // Labels: `start`, then one per scene in scene order

  function SceneLabels(scenes: seq<Scene>): seq<Stmt>
  {
    if scenes == [] then [] else SceneLabels(scenes[..|scenes| - 1]) + [Label(RenpyId(scenes[|scenes| - 1].id))]
  }

  lemma {:induction false} SceneBlocksLabels(vn: Novel, scenes: seq<Scene>)
    ensures Only(SceneBlocks(vn, scenes), LabelKind) == SceneLabels(scenes)
  {
    if scenes != [] {
      var prefix, last := scenes[..|scenes| - 1], scenes[|scenes| - 1];
      var own := Label(RenpyId(last.id));
      assert Only(SceneBlock(vn, last), LabelKind) == [own] by {
        assert Pick(own, LabelKind) == [own];
        assert Pick(Return, LabelKind) == [];
        SceneBlockFor(vn, last, LabelKind);
      }
      SceneBlocksLabels(vn, prefix);
      OnlySplit(SceneBlocks(vn, scenes), SceneBlocks(vn, prefix), SceneBlock(vn, last), LabelKind,
                SceneLabels(prefix), [own]);
    }
  }

  /** The script's labels are `start` followed by one label per scene, in the order of the scenes. */
  lemma LabelsInSceneOrder(vn: Novel)
    ensures Only(RenpyStatements(vn), LabelKind) == [Label("start")] + SceneLabels(vn.scenes)
  {
    var entry := Jump(RenpyId(vn.startSceneId), false);
    assert Pick(Label("start"), LabelKind) == [Label("start")];
    assert Pick(entry, LabelKind) == [];
    SceneBlocksLabels(vn, vn.scenes);
    StatementsFor(vn, LabelKind);
    DropSecond(Only(RenpyStatements(vn), LabelKind), Pick(Label("start"), LabelKind), Pick(entry, LabelKind),
               Only(SceneBlocks(vn, vn.scenes), LabelKind), [Label("start")], SceneLabels(vn.scenes));
  }

  /** Every scene's label is in the script. */
  lemma {:induction false} SceneLabelsComplete(scenes: seq<Scene>, s: Scene)
    requires s in scenes
    ensures Label(RenpyId(s.id)) in SceneLabels(scenes)
  {
    if s != scenes[|scenes| - 1] {
      assert scenes == scenes[..|scenes| - 1] + [scenes[|scenes| - 1]];
      SceneLabelsComplete(scenes[..|scenes| - 1], s);
    }
  }

  /** Every label among the scenes' labels belongs to one of the scenes. */
  lemma {:induction false} SceneLabelsSound(scenes: seq<Scene>, st: Stmt)
    requires st in SceneLabels(scenes)
    ensures exists s :: s in scenes && st == Label(RenpyId(s.id))
  {
    var prefix, last := scenes[..|scenes| - 1], scenes[|scenes| - 1];
    if st != Label(RenpyId(last.id)) {
      SceneLabelsSound(prefix, st);
      var s :| s in prefix && st == Label(RenpyId(s.id));
      assert s in scenes;
    }
  }

  /** The script has one label more than the novel has scenes: `start`. */
  lemma LabelCount(vn: Novel)
    ensures |Only(RenpyStatements(vn), LabelKind)| == |vn.scenes| + 1
  {
    LabelsInSceneOrder(vn);
    SceneLabelsLength(vn.scenes);
  }

  lemma {:induction false} SceneLabelsLength(scenes: seq<Scene>)
    ensures |SceneLabels(scenes)| == |scenes|
  {
    if scenes != [] {
      SceneLabelsLength(scenes[..|scenes| - 1]);
    }
  }

  // ---------------------------------------------------------------------------
  // Returns: exactly one per ending scene

  function EndingCount(scenes: seq<Scene>): nat
  {
    if scenes == [] then 0
    else EndingCount(scenes[..|scenes| - 1]) + (if IsEnding(scenes[|scenes| - 1]) then 1 else 0)
  }

  lemma {:induction false} SceneBlocksReturns(vn: Novel, scenes: seq<Scene>)
    ensures |Only(SceneBlocks(vn, scenes), ReturnKind)| == EndingCount(scenes)
  {
    if scenes != [] {
      var prefix, last := scenes[..|scenes| - 1], scenes[|scenes| - 1];
      var tail := if IsEnding(last) then [Return] else [];
      assert Only(SceneBlock(vn, last), ReturnKind) == tail by {
        assert Pick(Label(RenpyId(last.id)), ReturnKind) == [];
        assert Pick(Return, ReturnKind) == [Return];
        SceneBlockFor(vn, last, ReturnKind);
      }
      SceneBlocksReturns(vn, prefix);
      OnlySplit(SceneBlocks(vn, scenes), SceneBlocks(vn, prefix), SceneBlock(vn, last), ReturnKind,
                Only(SceneBlocks(vn, prefix), ReturnKind), tail);
    }
  }

  /** The script has one `return` per ending scene and no other. */
  lemma ReturnsCountEndings(vn: Novel)
    ensures |Only(RenpyStatements(vn), ReturnKind)| == EndingCount(vn.scenes)
  {
    ScriptReturns(vn);
    SceneBlocksReturns(vn, vn.scenes);
  }

  lemma ScriptReturns(vn: Novel)
    ensures Only(RenpyStatements(vn), ReturnKind) == Only(SceneBlocks(vn, vn.scenes), ReturnKind)
  {
    var entry := Jump(RenpyId(vn.startSceneId), false);
    assert Pick(Label("start"), ReturnKind) == [];
    assert Pick(entry, ReturnKind) == [];
    StatementsFor(vn, ReturnKind);
    DropFront(Pick(Label("start"), ReturnKind), Pick(entry, ReturnKind), Only(SceneBlocks(vn, vn.scenes), ReturnKind));
  }

  // ---------------------------------------------------------------------------
  // Image and character declarations

  /** One image per (character, expression) pair, characters and expressions in order. */
  function ImagePairs(cs: seq<Character>): seq<Stmt>
  {
    if cs == [] then []
    else ImagePairs(cs[..|cs| - 1]) + ExpressionImages(RenpyId(cs[|cs| - 1].id), cs[|cs| - 1].expressions)
  }

  lemma {:induction false} CharacterImagesOnly(cs: seq<Character>)
    ensures Only(CharacterImages(cs), CharacterImageKind) == ImagePairs(cs)
  {
    if cs != [] {
      var prefix, c := cs[..|cs| - 1], cs[|cs| - 1];
      var images := ExpressionImages(RenpyId(c.id), c.expressions);
      CharacterImagesOnly(prefix);
      ExpressionImagesKinds(RenpyId(c.id), c.expressions);
      OnlyAll(images, CharacterImageKind);
      OnlyOne(Blank, CharacterImageKind);
      OnlyAppend(CharacterImages(prefix), images, CharacterImageKind);
      OnlyAppend(CharacterImages(prefix) + images, [Blank], CharacterImageKind);
    }
  }

  /** The script declares exactly one character image per (character, expression) pair, in order. */
  lemma CharacterImagesDeclared(vn: Novel)
    ensures Only(RenpyStatements(vn), CharacterImageKind) == ImagePairs(vn.characters)
  {
    var k := CharacterImageKind;
    BackgroundImagesKinds(vn.scenes);
    OnlyNone(BackgroundImages(vn.scenes), BackgroundImageKind, BackgroundImageKind, k);
    DefinitionsKinds(vn.characters);
    OnlyNone(Definitions(vn.characters), DefineKind, DefineKind, k);
    CharacterImagesOnly(vn.characters);
    DropEmpty(ImagePairs(vn.characters), Only(BackgroundImages(vn.scenes), k), Only(Definitions(vn.characters), k));
    StatementsFront(vn, k);
  }

  /** The script declares one background image per scene, in scene order, and no other. */
  lemma BackgroundImagesDeclared(vn: Novel)
    ensures Only(RenpyStatements(vn), BackgroundImageKind) == BackgroundImages(vn.scenes)
  {
    var k := BackgroundImageKind;
    CharacterImagesKinds(vn.characters);
    OnlyNone(CharacterImages(vn.characters), CharacterImageKind, VerbatimKind, k);
    BackgroundImagesKinds(vn.scenes);
    OnlyAll(BackgroundImages(vn.scenes), k);
    DefinitionsKinds(vn.characters);
    OnlyNone(Definitions(vn.characters), DefineKind, DefineKind, k);
    KeepMiddle(Only(CharacterImages(vn.characters), k), BackgroundImages(vn.scenes), Only(Definitions(vn.characters), k));
    StatementsFront(vn, k);
  }

  /** The script defines one Ren'Py character per character, in order, and no other. */
  lemma CharactersDefined(vn: Novel)
    ensures Only(RenpyStatements(vn), DefineKind) == Definitions(vn.characters)
  {
    var k := DefineKind;
    CharacterImagesKinds(vn.characters);
    OnlyNone(CharacterImages(vn.characters), CharacterImageKind, VerbatimKind, k);
    BackgroundImagesKinds(vn.scenes);
    OnlyNone(BackgroundImages(vn.scenes), BackgroundImageKind, BackgroundImageKind, k);
    DefinitionsKinds(vn.characters);
    OnlyAll(Definitions(vn.characters), k);
    KeepLast(Only(CharacterImages(vn.characters), k), Only(BackgroundImages(vn.scenes), k), Definitions(vn.characters));
    StatementsFront(vn, k);
  }

  lemma KeepMiddle(a: seq<Stmt>, b: seq<Stmt>, c: seq<Stmt>)
    requires a == [] && c == []
    ensures a + b + c == b
  {
  }

  lemma KeepLast(a: seq<Stmt>, b: seq<Stmt>, c: seq<Stmt>)
    requires a == [] && b == []
    ensures a + b + c == c
  {
  }

  lemma {:induction false} ExpressionImagesComplete(charTag: string, es: seq<Expression>, e: Expression)
    requires e in es
    ensures CharacterImage(charTag, RenpyId(e.name)) in ExpressionImages(charTag, es)
  {
    if e != es[|es| - 1] {
      assert es == es[..|es| - 1] + [es[|es| - 1]];
      ExpressionImagesComplete(charTag, es[..|es| - 1], e);
    }
  }

  /** Every expression of every character has its image declared. */
  lemma {:induction false} ImagePairsComplete(cs: seq<Character>, c: Character, e: Expression)
    requires c in cs && e in c.expressions
    ensures CharacterImage(RenpyId(c.id), RenpyId(e.name)) in ImagePairs(cs)
  {
    var prefix, last := cs[..|cs| - 1], cs[|cs| - 1];
    if c == last {
      ExpressionImagesComplete(RenpyId(c.id), c.expressions, e);
    } else {
      assert cs == prefix + [last];
      ImagePairsComplete(prefix, c, e);
    }
  }

  /** The `k`-th background image is the `k`-th scene's. */
  lemma {:induction false} BackgroundImagesAt(scenes: seq<Scene>)
    ensures |BackgroundImages(scenes)| == |scenes|
    ensures forall i :: 0 <= i < |scenes| ==> BackgroundImages(scenes)[i] == BackgroundImage(BgTag(scenes[i]))
  {
    if scenes != [] {
      var prefix := scenes[..|scenes| - 1];
      BackgroundImagesAt(prefix);
      forall i | 0 <= i < |scenes|
        ensures BackgroundImages(scenes)[i] == BackgroundImage(BgTag(scenes[i]))
      {
        if i < |prefix| {
          assert scenes[i] == prefix[i];
        }
      }
    }
  }

  /** The `k`-th definition is the `k`-th character's, under its own display name. */
  lemma {:induction false} DefinitionsAt(cs: seq<Character>)
    ensures |Definitions(cs)| == |cs|
    ensures forall i :: 0 <= i < |cs| ==> Definitions(cs)[i] == Define(RenpyId(cs[i].id), cs[i].name)
  {
    if cs != [] {
      var prefix := cs[..|cs| - 1];
      DefinitionsAt(prefix);
      forall i | 0 <= i < |cs|
        ensures Definitions(cs)[i] == Define(RenpyId(cs[i].id), cs[i].name)
      {
        if i < |prefix| {
          assert cs[i] == prefix[i];
        }
      }
    }
  }

  // ---------------------------------------------------------------------------
  // Hides: every scene first clears every character of the novel

  /** The `k`-th hide is the `k`-th character's. */
  lemma {:induction false} HidesAt(cs: seq<Character>)
    ensures |Hides(cs)| == |cs|
    ensures forall i :: 0 <= i < |cs| ==> Hides(cs)[i] == Hide(RenpyId(cs[i].id))
  {
    if cs != [] {
      var prefix := cs[..|cs| - 1];
      HidesAt(prefix);
      forall i | 0 <= i < |cs|
        ensures Hides(cs)[i] == Hide(RenpyId(cs[i].id))
      {
        if i < |prefix| {
          assert cs[i] == prefix[i];
        }
      }
    }
  }

  /** Every scene block hides every character of the novel, in order, and hides nothing else. */
  lemma SceneHidesEveryCharacter(vn: Novel, s: Scene)
    ensures Only(SceneBlock(vn, s), HideKind) == Hides(vn.characters)
  {
    var k := HideKind;
    assert Pick(Label(RenpyId(s.id)), k) == [];
    HidesKinds(vn.characters);
    OnlyAll(Hides(vn.characters), k);
    StagingNone(vn.characters, s.presentCharacterIds, k);
    DialogueNone(vn.characters, s.dialogue, k);
    ClosingNone(s, k);
    KeepSecond(Pick(Label(RenpyId(s.id)), k), Hides(vn.characters),
               Only(Staging(vn.characters, s.presentCharacterIds), k),
               Only(DialogueStatements(vn.characters, s.dialogue), k), Only(Closing(s), k));
    SceneBlockOnly(vn, s, k);
  }

  /** The closing holds nothing but its menu, its arms and its `return`. */
  lemma ClosingNone(s: Scene, k: Kind)
    requires k != VerbatimKind && k != MenuKind && k != MenuItemKind && k != JumpKind && k != ReturnKind
    ensures Only(Closing(s), k) == []
  {
    assert Pick(Menu, k) == [] && Pick(Return, k) == [];
    MenuArmsNone(s.choices, k);
    ClosingOnly(s, k);
  }

  lemma KeepSecond(p: seq<Stmt>, h: seq<Stmt>, st: seq<Stmt>, d: seq<Stmt>, c: seq<Stmt>)
    requires p == [] && st == [] && d == [] && c == []
    ensures p + h + st + d + c == h
  {
  }

  lemma KeepFourth(p: seq<Stmt>, h: seq<Stmt>, st: seq<Stmt>, d: seq<Stmt>, c: seq<Stmt>)
    requires p == [] && h == [] && st == [] && c == []
    ensures p + h + st + d + c == d
  {
  }

  lemma KeepFifth(p: seq<Stmt>, h: seq<Stmt>, st: seq<Stmt>, d: seq<Stmt>, c: seq<Stmt>)
    requires p == [] && h == [] && st == [] && d == []
    ensures p + h + st + d + c == c
  {
  }

  // ---------------------------------------------------------------------------
  // Menus: one arm per choice, in order, jumping to the choice's target

  function ChoiceItems(choices: seq<Choice>): seq<Stmt>
  {
    if choices == [] then [] else ChoiceItems(choices[..|choices| - 1]) + [MenuItem(choices[|choices| - 1].text)]
  }

  function ChoiceJumps(choices: seq<Choice>): seq<Stmt>
  {
    if choices == [] then []
    else ChoiceJumps(choices[..|choices| - 1]) + [Jump(RenpyId(choices[|choices| - 1].nextSceneId), true)]
  }

  lemma {:induction false} MenuArmsItems(choices: seq<Choice>)
    ensures Only(MenuArms(choices), MenuItemKind) == ChoiceItems(choices)
  {
    if choices != [] {
      var prefix, c := choices[..|choices| - 1], choices[|choices| - 1];
      var arms, item, jump := MenuArms(prefix), MenuItem(c.text), Jump(RenpyId(c.nextSceneId), true);
      assert MenuArms(choices) == arms + [item] + [jump];
      assert Only([item], MenuItemKind) == [item] by { OnlyOne(item, MenuItemKind); }
      assert Only([jump], MenuItemKind) == [] by { OnlyOne(jump, MenuItemKind); }
      MenuArmsItems(prefix);
      calc {
        Only(MenuArms(choices), MenuItemKind);
        { OnlyAppend(arms + [item], [jump], MenuItemKind); OnlyAppend(arms, [item], MenuItemKind); }
        Only(arms, MenuItemKind) + Only([item], MenuItemKind) + Only([jump], MenuItemKind);
        ChoiceItems(prefix) + [item] + [];
        { DropEmpty(ChoiceItems(prefix) + [item], [], []); }
        ChoiceItems(choices);
      }
    }
  }


  lemma {:induction false} MenuArmsJumps(choices: seq<Choice>)
    ensures Only(MenuArms(choices), JumpKind) == ChoiceJumps(choices)
  {
    if choices != [] {
      var prefix, c := choices[..|choices| - 1], choices[|choices| - 1];
      var arms, item, jump := MenuArms(prefix), MenuItem(c.text), Jump(RenpyId(c.nextSceneId), true);
      assert MenuArms(choices) == arms + [item] + [jump];
      assert Only([item], JumpKind) == [] by { OnlyOne(item, JumpKind); }
      assert Only([jump], JumpKind) == [jump] by { OnlyOne(jump, JumpKind); }
      MenuArmsJumps(prefix);
      calc {
        Only(MenuArms(choices), JumpKind);
        { OnlyAppend(arms + [item], [jump], JumpKind); OnlyAppend(arms, [item], JumpKind); }
        Only(arms, JumpKind) + Only([item], JumpKind) + Only([jump], JumpKind);
        ChoiceJumps(prefix) + [] + [jump];
        { assert ChoiceJumps(prefix) + [] == ChoiceJumps(prefix); }
        ChoiceJumps(choices);
      }
    }
  }


  /** Of the menu kinds, a scene block holds exactly what its menu arms hold. */
  lemma SceneBlockMenu(vn: Novel, s: Scene, k: Kind)
    requires k == MenuItemKind || k == JumpKind
    ensures Only(SceneBlock(vn, s), k) == Only(MenuArms(s.choices), k)
  {
    assert Pick(Label(RenpyId(s.id)), k) == [] && Pick(Menu, k) == [] && Pick(Return, k) == [];
    assert s.choices == [] ==> Only(MenuArms(s.choices), k) == [];
    HidesNone(vn.characters, k);
    StagingNone(vn.characters, s.presentCharacterIds, k);
    DialogueNone(vn.characters, s.dialogue, k);
    ClosingOnly(s, k);
    KeepFifth(Pick(Label(RenpyId(s.id)), k), Only(Hides(vn.characters), k),
              Only(Staging(vn.characters, s.presentCharacterIds), k),
              Only(DialogueStatements(vn.characters, s.dialogue), k), Only(Closing(s), k));
    SceneBlockOnly(vn, s, k);
  }

  /** A scene's menu offers its choices' texts in order, and its jumps go to their targets in order. */
  lemma SceneMenuFollowsChoices(vn: Novel, s: Scene)
    ensures Only(SceneBlock(vn, s), MenuItemKind) == ChoiceItems(s.choices)
    ensures Only(SceneBlock(vn, s), JumpKind) == ChoiceJumps(s.choices)
  {
    SceneBlockMenu(vn, s, MenuItemKind);
    MenuArmsItems(s.choices);
    SceneBlockMenu(vn, s, JumpKind);
    MenuArmsJumps(s.choices);
  }

  // ---------------------------------------------------------------------------
  // Say statements: one per line, except lines whose set speaker does not resolve

  /** The lines whose speaker is set but names no character. */
  function Unresolved(cs: seq<Character>, lines: seq<DialogueLine>): nat
  {
    if lines == [] then 0
    else
      var line := lines[|lines| - 1];
      Unresolved(cs, lines[..|lines| - 1])
      + (if Truthy(line.characterId) && FindCharacter(cs, line.characterId.value).None? then 1 else 0)
  }

  lemma LineSays(cs: seq<Character>, line: DialogueLine)
    ensures |Only(LineStatements(cs, line), SayKind)|
      == if Truthy(line.characterId) && FindCharacter(cs, line.characterId.value).None? then 0 else 1
  {
    LineKinds(cs, line);
    OnlyNone(ExpressionChange(cs, line), ShowKind, ShowKind, SayKind);
    OnlyAll(Speech(cs, line), SayKind);
    OnlyAppend(ExpressionChange(cs, line), Speech(cs, line), SayKind);
  }

  lemma {:induction false} DialogueSays(cs: seq<Character>, lines: seq<DialogueLine>)
    ensures |Only(DialogueStatements(cs, lines), SayKind)| + Unresolved(cs, lines) == |lines|
  {
    if lines != [] {
      var prefix, line := lines[..|lines| - 1], lines[|lines| - 1];
      DialogueSays(cs, prefix);
      LineSays(cs, line);
      OnlyAppend(DialogueStatements(cs, prefix), LineStatements(cs, line), SayKind);
    }
  }

  /** A scene block says every line of its dialogue, except those whose set speaker does not resolve. */
  lemma SceneSaysEveryLine(vn: Novel, s: Scene)
    ensures |Only(SceneBlock(vn, s), SayKind)| + Unresolved(vn.characters, s.dialogue) == |s.dialogue|
  {
    var k := SayKind;
    assert Pick(Label(RenpyId(s.id)), k) == [];
    HidesNone(vn.characters, k);
    StagingNone(vn.characters, s.presentCharacterIds, k);
    ClosingNone(s, k);
    DialogueSays(vn.characters, s.dialogue);
    KeepFourth(Pick(Label(RenpyId(s.id)), k), Only(Hides(vn.characters), k),
               Only(Staging(vn.characters, s.presentCharacterIds), k),
               Only(DialogueStatements(vn.characters, s.dialogue), k), Only(Closing(s), k));
    SceneBlockOnly(vn, s, k);
  }

  // ---------------------------------------------------------------------------
  // Portraits agree with the in-editor player

  lemma {:induction false} LowerNeutralIsNamedNeutral(es: seq<Expression>)
    ensures LowerNeutralExpression(es) == FindExpressionNamed(es, Neutral)
  {
    if es != [] {
      LowerNeutralIsNeutral(es[0].name);
      LowerNeutralIsNamedNeutral(es[1..]);
    }
  }

  /** The stage expression is the one the player shows for a character that is not speaking. */
  lemma RenpyNeutralIsPlayers(es: seq<Expression>)
    ensures RenpyNeutral(es) == NeutralOrFirst(es)
  {
    LowerNeutralIsNamedNeutral(es);
  }

  /** A present character is staged with the portrait the player shows for it while silent. */
  lemma StageShowMatchesPlayer(cs: seq<Character>, id: string, index: nat)
    ensures StageShow(cs, id, index)
      == match FindCharacter(cs, id)
         case None => []
         case Some(c) =>
           match Playback.ShownExpression(c, false, None)
           case None => []
           case Some(e) => [ShowAt(RenpyId(c.id), RenpyId(e.name), Position(index))]
  {
    match FindCharacter(cs, id)
    case None =>
    case Some(c) => RenpyNeutralIsPlayers(c.expressions);
  }

  /**
   * The stage position counts ids that resolve to no character: behind one unknown id, a lone
   * character is shown `at right`, the second position, with the portrait the player shows.
   * `PlayerCentresLoneCharacter` is the player's side of the same scene.
   */
  lemma StagePositionCountsUnresolved(c: Character, unknown: string)
    requires unknown != c.id && c.expressions != []
    ensures Staging([c], [unknown, c.id])
      == [ShowAt(RenpyId(c.id), RenpyId(Playback.ShownExpression(c, false, None).value.name), "at right"), Blank]
  {
    StageShowsPair([c], unknown, c.id);
    StageShowMatchesPlayer([c], c.id, 1);
    assert FindCharacter([c], unknown) == None && FindCharacter([c], c.id) == Some(c);
    assert Position(1) == "at right";
  }

  lemma StageShowsPair(cs: seq<Character>, a: string, b: string)
    ensures StageShows(cs, [a, b]) == StageShow(cs, a, 0) + StageShow(cs, b, 1)
  {
    assert [a, b][..1] == [a] && [a][..0] == [];
    assert StageShows(cs, [a]) == [] + StageShow(cs, a, 0) == StageShow(cs, a, 0);
  }

  /** The player resolves the ids first and draws the one character it finds alone, centred at 50%. */
  lemma PlayerCentresLoneCharacter(c: Character, unknown: string)
    requires unknown != c.id
    ensures Playback.PresentCharacters([c], [unknown, c.id]) == [c]
    ensures Playback.SpriteLeft(0, |Playback.PresentCharacters([c], [unknown, c.id])|) == 50.0
  {
    var ids := [unknown, c.id];
    assert FindCharacter([c], unknown) == None;
    assert FindCharacter([c], c.id) == Some(c);
    assert ids[1..] == [c.id] && [c.id][1..] == [];
  }

  /**
   * A line changes the speaker's portrait exactly when its speaker and expression are both set
   * and resolve, and then to the portrait the player shows for the speaking character.
   */
  lemma ExpressionChangeMatchesPlayer(cs: seq<Character>, line: DialogueLine)
    ensures ExpressionChange(cs, line) != []
      <==> (&& Truthy(line.characterId) && Truthy(line.expressionId)
            && FindCharacter(cs, line.characterId.value).Some?
            && FindExpression(FindCharacter(cs, line.characterId.value).value.expressions, line.expressionId.value).Some?)
    ensures ExpressionChange(cs, line) != [] ==>
      (var c := FindCharacter(cs, line.characterId.value).value;
       ExpressionChange(cs, line) == [Show(RenpyId(c.id), RenpyId(Playback.ShownExpression(c, true, line.expressionId).value.name))])
  {
  }

  // ---------------------------------------------------------------------------
  // Literals read back as the story's text

  /**
   * The quoted text of a say statement, as the exporter writes it, reads back as the line's
   * text when the text has no backslash, and the literal closes at the end of the line.
   */
  lemma SayReadsBack(speaker: Option<string>, text: string)
    requires '\\' !in text
    ensures var line := Render(Say(speaker, text));
      var open := if speaker.Some? then 6 + |speaker.value| else 5;
      open <= |line| && ReadLiteral(line[open..] + "\n", '"') == Some((text, |line| - open - 1))
  {
    QuoteOnlySufficesWithoutBackslash(text, '"');
    CorrectedSayReadsBack(speaker, text);
  }

  /** What precedes the opening quote of a say statement. */
  function SayPrefix(speaker: Option<string>): string
  {
    if speaker.Some? then "    " + speaker.value + " \"" else "    \""
  }

  lemma SayLine(esc: Escaping, speaker: Option<string>, text: string)
    ensures RenderWith(esc, Say(speaker, text)) == SayPrefix(speaker) + (EscapeWith(esc, text, '"') + "\"")
  {
  }

  lemma DropPrefix<T>(p: seq<T>, rest: seq<T>)
    ensures (p + rest)[|p|..] == rest
  {
  }

  /** The narrator line `C:\` as the exporter writes it: its literal never closes. */
  lemma BackslashSayNeverCloses()
    ensures var line := Render(Say(None, "C:\\"));
      5 <= |line| && ReadLiteral(line[5..] + "\n", '"') == None
  {
    var e := EscapeQuoteOnly("C:\\", '"');
    SayLine(AsWritten, None, "C:\\");
    DropPrefix("    \"", e + "\"");
    TrailingBackslashBreaksLiteral();
    assert (e + "\"") + "\n" == e + "\"\n";
  }

  /** With the corrected escaping, the quoted text of a say statement always reads back. */
  lemma CorrectedSayReadsBack(speaker: Option<string>, text: string)
    ensures var line := CorrectedRender(Say(speaker, text));
      var open := if speaker.Some? then 6 + |speaker.value| else 5;
      open <= |line| && ReadLiteral(line[open..] + "\n", '"') == Some((text, |line| - open - 1))
  {
    var e := Escape(text, '"');
    SayLine(Corrected, speaker, text);
    DropPrefix(SayPrefix(speaker), e + "\"");
    EscapeRoundTrip(text, '"', "\n");
    assert (e + "\"") + "\n" == e + ['"'] + "\n";
  }

  /** The quoted text of a menu arm reads back as the choice's text when it has no backslash. */
  lemma MenuItemReadsBack(text: string)
    requires '\\' !in text
    ensures var line := Render(MenuItem(text));
      9 <= |line| && ReadLiteral(line[9..], '"') == Some((text, |line| - 11))
  {
    QuoteOnlySufficesWithoutBackslash(text, '"');
    CorrectedMenuItemReadsBack(text);
  }

  /** With the corrected escaping, a menu arm's text always reads back, closing just before the colon. */
  lemma CorrectedMenuItemReadsBack(text: string)
    ensures var line := CorrectedRender(MenuItem(text));
      9 <= |line| && ReadLiteral(line[9..], '"') == Some((text, |line| - 11))
  {
    var line := CorrectedRender(MenuItem(text));
    EscapeRoundTrip(text, '"', ":");
    assert line[9..] == Escape(text, '"') + ['"'] + ":";
  }

  /** The quoted name of a character definition reads back as the character's name when it has no backslash. */
  lemma DefineReadsBack(charVar: string, name: string)
    requires '\\' !in name
    ensures var line := Render(Define(charVar, name));
      var open := 21 + |charVar|;
      open <= |line| && ReadLiteral(line[open..], '\'') == Some((name, |line| - open - 2))
  {
    QuoteOnlySufficesWithoutBackslash(name, '\'');
    CorrectedDefineReadsBack(charVar, name);
  }

  /** With the corrected escaping, a definition's name always reads back. */
  lemma CorrectedDefineReadsBack(charVar: string, name: string)
    ensures var line := CorrectedRender(Define(charVar, name));
      var open := 21 + |charVar|;
      open <= |line| && ReadLiteral(line[open..], '\'') == Some((name, |line| - open - 2))
  {
    var line := CorrectedRender(Define(charVar, name));
    var open := 21 + |charVar|;
    EscapeRoundTrip(name, '\'', ")");
    assert line[open..] == Escape(name, '\'') + ['\''] + ")";
  }
}

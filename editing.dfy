/**
 * The editing actions of the `useVisualNovel` hook. Every action deep-copies the novel
 * and edits the copy, so each one is a transformation from the old novel to the new one.
 * Actions that build the new novel from spreads and `map` are functions; actions that
 * mutate the copied draft in place (`forEach`, `push`, `splice`, field assignment) are
 * methods that take the draft and return it edited. Fresh ids (from `Date.now()`) are
 * parameters.
 */
module Editing {
  import opened Wrappers
  import opened Model
  import opened Seqs

  // ---------------------------------------------------------------------------
  // Novel-level setters

  function UpdateTitle(vn: Novel, title: string): (r: Novel)
    ensures r.title == title && r.(title := vn.title) == vn
  {
    vn.(title := title)
  }

  function UpdateDescription(vn: Novel, description: string): (r: Novel)
    ensures r.description == description && r.(description := vn.description) == vn
  {
    vn.(description := description)
  }

  function UpdateCoverUrl(vn: Novel, url: string): (r: Novel)
    ensures r.coverUrl == url && r.(coverUrl := vn.coverUrl) == vn
  {
    vn.(coverUrl := url)
  }

  /** The start id is stored as given: it is not checked against the scenes. */
  function UpdateStartSceneId(vn: Novel, id: string): (r: Novel)
    ensures r.startSceneId == id && r.(startSceneId := vn.startSceneId) == vn
  {
    vn.(startSceneId := id)
  }

  // ---------------------------------------------------------------------------
  // Characters

  /** The character `addCharacter` creates: four expressions without art, neutral first. */
  function NewCharacter(newId: string): Character
  {
    Character(newId, "새 캐릭터", [
      Expression(newId + "_expr_1", Neutral, ""),
      Expression(newId + "_expr_2", "행복", ""),
      Expression(newId + "_expr_3", "슬픔", ""),
      Expression(newId + "_expr_4", "화남", "")
    ], Some(""))
  }

  /** `newId` stands for `char_<Date.now()>`. */
  function AddCharacter(vn: Novel, newId: string): (r: Novel)
    ensures r.characters == vn.characters + [NewCharacter(newId)]
    ensures r.(characters := vn.characters) == vn
    ensures var c := r.characters[|r.characters| - 1];
      c.id == newId && |c.expressions| == 4 && c.expressions[0].name == Neutral
      && (forall e :: e in c.expressions ==> e.imageUrl == "")
      && forall i, j :: 0 <= i < j < 4 ==> c.expressions[i].id != c.expressions[j].id
  {
    var c := NewCharacter(newId);
    assert forall i, j :: 0 <= i < j < 4 ==> c.expressions[i].id != c.expressions[j].id by {
      forall i, j | 0 <= i < j < 4 ensures c.expressions[i].id != c.expressions[j].id {
        var a, b := c.expressions[i].id, c.expressions[j].id;
        assert a[|a| - 1] != b[|b| - 1];
      }
    }
    vn.(characters := vn.characters + [c])
  }

  /**
   * What happens to one character's first match: `find(c => c.id === id)` then a field
   * assignment. `FindCharacter` on the result sees the edit; every other position is
   * untouched; nothing happens when no character has the id.
   */
  ghost predicate EditsFirstCharacter(vn: Novel, r: Novel, id: string, edit: Character -> Character)
  {
    && r.(characters := vn.characters) == vn
    && |r.characters| == |vn.characters|
    && (forall k :: 0 <= k < |vn.characters| && Some(k) != CharacterIndex(vn.characters, id) ==>
          r.characters[k] == vn.characters[k])
    && FindCharacter(r.characters, id) == (match FindCharacter(vn.characters, id)
         case None => None
         case Some(c) => Some(edit(c)))
    && (FindCharacter(vn.characters, id).None? ==> r == vn)
  }

  function UpdateCharacterName(vn: Novel, id: string, name: string): (r: Novel)
    ensures EditsFirstCharacter(vn, r, id, (c: Character) => c.(name := name))
  {
    match CharacterIndex(vn.characters, id)
    case None => vn
    case Some(k) =>
      var r := vn.(characters := vn.characters[k := vn.characters[k].(name := name)]);
      assert CharacterIndex(r.characters, id) == Some(k) by { FirstIndexKept(vn.characters, r.characters, id, k); }
      r
  }

  function UpdateCharacterAiPrompt(vn: Novel, id: string, prompt: string): (r: Novel)
    ensures EditsFirstCharacter(vn, r, id, (c: Character) => c.(aiPrompt := Some(prompt)))
  {
    match CharacterIndex(vn.characters, id)
    case None => vn
    case Some(k) =>
      var r := vn.(characters := vn.characters[k := vn.characters[k].(aiPrompt := Some(prompt))]);
      assert CharacterIndex(r.characters, id) == Some(k) by { FirstIndexKept(vn.characters, r.characters, id, k); }
      r
  }

  /** Sets the art of the first expression with `exprId` of the first character with `charId`. */
  function SetExpressionUrl(c: Character, exprId: string, url: string): (r: Character)
    ensures r.(expressions := c.expressions) == c && |r.expressions| == |c.expressions|
    ensures forall j :: 0 <= j < |c.expressions| ==>
      r.expressions[j] == if Some(j) == ExpressionIndex(c.expressions, exprId)
        then c.expressions[j].(imageUrl := url) else c.expressions[j]
  {
    match ExpressionIndex(c.expressions, exprId)
    case None => c
    case Some(j) => c.(expressions := c.expressions[j := c.expressions[j].(imageUrl := url)])
  }

  function UpdateCharacterExpressionUrl(vn: Novel, charId: string, exprId: string, url: string): (r: Novel)
    ensures EditsFirstCharacter(vn, r, charId, (c: Character) => SetExpressionUrl(c, exprId, url))
  {
    match CharacterIndex(vn.characters, charId)
    case None => vn
    case Some(k) =>
      var r := vn.(characters := vn.characters[k := SetExpressionUrl(vn.characters[k], exprId, url)]);
      assert CharacterIndex(r.characters, charId) == Some(k) by { FirstIndexKept(vn.characters, r.characters, charId, k); }
      r
  }

  /** Replacing the first match by an element with the same id keeps it the first match. */
  lemma FirstIndexKept(cs: seq<Character>, cs': seq<Character>, id: string, k: nat)
    requires CharacterIndex(cs, id) == Some(k)
    requires |cs'| == |cs| && cs'[k].id == id
    requires forall j :: 0 <= j < |cs| && j != k ==> cs'[j] == cs[j]
    ensures CharacterIndex(cs', id) == Some(k)
  {
    match CharacterIndex(cs', id)
    case None =>
    case Some(k') => assert k' == k;
  }

  /** Lines by character `id` become narrator lines (both references nulled); others are kept. */
  ghost predicate LinesUnassigned(d: seq<DialogueLine>, d': seq<DialogueLine>, id: string)
  {
    |d'| == |d| &&
    forall k :: 0 <= k < |d| ==>
      d'[k] == if d[k].characterId == Some(id) then d[k].(characterId := None, expressionId := None) else d[k]
  }

  /** A scene after `id` left it: gone from the present list, its lines unassigned, the rest kept. */
  ghost predicate CharacterRemovedFrom(s: Scene, s': Scene, id: string)
  {
    && s' == s.(presentCharacterIds := KeepUnless(s.presentCharacterIds, Id, {id}), dialogue := s'.dialogue)
    && LinesUnassigned(s.dialogue, s'.dialogue, id)
  }

  /** No scene lists `id` as present and no line is spoken by `id`. */
  ghost predicate NoReferenceTo(scenes: seq<Scene>, id: string)
  {
    forall s :: s in scenes ==>
      id !in s.presentCharacterIds && forall line :: line in s.dialogue ==> line.characterId != Some(id)
  }

  /** The inner `s.dialogue.forEach(...)` of `deleteCharacter` and `toggleCharacterInScene`. */
  method UnassignLines(dialogue: seq<DialogueLine>, id: string) returns (d: seq<DialogueLine>)
    ensures LinesUnassigned(dialogue, d, id)
    ensures forall k :: 0 <= k < |d| ==> d[k].characterId != Some(id) && d[k].text == dialogue[k].text
  {
    d := dialogue;
    var j := 0;
    while j < |d|
      invariant 0 <= j <= |d| == |dialogue|
      invariant forall k :: 0 <= k < j ==>
        d[k] == if dialogue[k].characterId == Some(id) then dialogue[k].(characterId := None, expressionId := None) else dialogue[k]
      invariant forall k :: j <= k < |d| ==> d[k] == dialogue[k]
    {
      if d[j].characterId == Some(id) {
        d := d[j := d[j].(characterId := None, expressionId := None)];
      }
      j := j + 1;
    }
  }

  /** `deleteCharacter`: removes the character and every reference to it, in every scene. */
  method DeleteCharacter(vn: Novel, id: string) returns (r: Novel)
    ensures r.characters == KeepUnless(vn.characters, CharacterId, {id})
    ensures FindCharacter(r.characters, id).None?
    ensures |r.scenes| == |vn.scenes|
    ensures forall k :: 0 <= k < |vn.scenes| ==> CharacterRemovedFrom(vn.scenes[k], r.scenes[k], id)
    ensures NoReferenceTo(r.scenes, id)
    ensures r.(characters := vn.characters, scenes := vn.scenes) == vn
  {
    var draft := vn;
    draft := draft.(characters := KeepUnless(draft.characters, CharacterId, {id}));
    var scenes := draft.scenes;
    var i := 0;
    while i < |scenes|
      invariant 0 <= i <= |scenes| == |vn.scenes|
      invariant forall k :: 0 <= k < i ==> CharacterRemovedFrom(vn.scenes[k], scenes[k], id)
      invariant forall k :: 0 <= k < i ==> id !in scenes[k].presentCharacterIds
      invariant forall k, line :: 0 <= k < i && line in scenes[k].dialogue ==> line.characterId != Some(id)
      invariant forall k :: i <= k < |scenes| ==> scenes[k] == vn.scenes[k]
    {
      var s := scenes[i];
      s := s.(presentCharacterIds := KeepUnless(s.presentCharacterIds, Id, {id}));
      var d := UnassignLines(s.dialogue, id);
      s := s.(dialogue := d);
      scenes := scenes[i := s];
      i := i + 1;
    }
    r := draft.(scenes := scenes);
  }

  // ---------------------------------------------------------------------------
  // Scenes

  /** The scene `addScene` creates: one narrator line and no choices, so it is an ending. */
  function NewScene(newSceneId: string): Scene
  {
    Scene(newSceneId, "새 장면", "", [], [DialogueLine(None, None, "새 대사...")], [], Some(""))
  }

  /** `newSceneId` stands for the caller's `scene_<Date.now()>`. */
  function AddScene(vn: Novel, newSceneId: string): (r: Novel)
    ensures r.scenes == vn.scenes + [NewScene(newSceneId)]
    ensures r.(scenes := vn.scenes) == vn
    ensures var s := r.scenes[|r.scenes| - 1];
      s.id == newSceneId && IsEnding(s) && |s.dialogue| == 1 && s.dialogue[0].characterId.None?
  {
    vn.(scenes := vn.scenes + [NewScene(newSceneId)])
  }

  /** The choices that survive the deletion of scene `id`. */
  function PruneChoices(s: Scene, id: string): (r: Scene)
    ensures r == s.(choices := r.choices)
    ensures forall c :: c in r.choices <==> c in s.choices && c.nextSceneId != id
  {
    s.(choices := KeepUnless(s.choices, ChoiceTarget, {id}))
  }

  /**
   * `deleteScene`: removes the scenes with that id and prunes every choice that pointed to
   * it; the start scene id is left as it was, even when it now dangles.
   */
  method DeleteScene(vn: Novel, id: string) returns (r: Novel)
    ensures var kept := KeepUnless(vn.scenes, SceneId, {id});
      |r.scenes| == |kept| && forall k :: 0 <= k < |kept| ==> r.scenes[k] == PruneChoices(kept[k], id)
    ensures forall s :: s in r.scenes ==> s.id != id && forall c :: c in s.choices ==> c.nextSceneId != id
    ensures r.(scenes := vn.scenes) == vn
  {
    var draft := vn;
    draft := draft.(scenes := KeepUnless(draft.scenes, SceneId, {id}));
    ghost var kept := draft.scenes;
    var scenes := draft.scenes;
    var i := 0;
    while i < |scenes|
      invariant 0 <= i <= |scenes| == |kept|
      invariant forall k :: 0 <= k < i ==> scenes[k] == PruneChoices(kept[k], id)
      invariant forall k :: i <= k < |scenes| ==> scenes[k] == kept[k]
    {
      scenes := scenes[i := scenes[i].(choices := KeepUnless(scenes[i].choices, ChoiceTarget, {id}))];
      i := i + 1;
    }
    r := draft.(scenes := scenes);
    forall s | s in r.scenes ensures s.id != id {
      var k :| 0 <= k < |scenes| && scenes[k] == s;
      assert kept[k] in kept;
    }
  }

  /** The fields `updateScene` may set, each with its value. */
  datatype SceneEdit =
    | SetId(id: string)
    | SetName(name: string)
    | SetBackgroundUrl(url: string)
    | SetPresentCharacterIds(ids: seq<string>)
    | SetDialogue(lines: seq<DialogueLine>)
    | SetChoices(choices: seq<Choice>)
    | SetAiPrompt(prompt: string)

  function ApplySceneEdit(s: Scene, edit: SceneEdit): Scene
  {
    match edit
    case SetId(x) => s.(id := x)
    case SetName(x) => s.(name := x)
    case SetBackgroundUrl(x) => s.(backgroundUrl := x)
    case SetPresentCharacterIds(x) => s.(presentCharacterIds := x)
    case SetDialogue(x) => s.(dialogue := x)
    case SetChoices(x) => s.(choices := x)
    case SetAiPrompt(x) => s.(aiPrompt := Some(x))
  }

  /** `updateScene`: `map` over the scenes, so EVERY scene with that id gets the field. */
  function UpdateScene(vn: Novel, id: string, edit: SceneEdit): (r: Novel)
    ensures r.(scenes := vn.scenes) == vn && |r.scenes| == |vn.scenes|
    ensures forall k :: 0 <= k < |vn.scenes| && vn.scenes[k].id != id ==> r.scenes[k] == vn.scenes[k]
    ensures forall k :: 0 <= k < |vn.scenes| && vn.scenes[k].id == id ==> r.scenes[k] == ApplySceneEdit(vn.scenes[k], edit)
    ensures (forall s :: s in vn.scenes ==> s.id != id) ==> r == vn
  {
    var scenes := seq(|vn.scenes|, k requires 0 <= k < |vn.scenes| =>
      if vn.scenes[k].id == id then ApplySceneEdit(vn.scenes[k], edit) else vn.scenes[k]);
    assert (forall s :: s in vn.scenes ==> s.id != id) ==> scenes == vn.scenes;
    vn.(scenes := scenes)
  }

  /**
   * `toggleCharacterInScene` on the first scene with `sceneId`: presence appends the id only
   * when absent; absence filters it out and turns that scene's lines by it into narrator lines.
   */
  method ToggleCharacterInScene(vn: Novel, sceneId: string, charId: string, isPresent: bool) returns (r: Novel)
    ensures r.(scenes := vn.scenes) == vn && |r.scenes| == |vn.scenes|
    ensures forall j :: 0 <= j < |vn.scenes| && Some(j) != SceneIndex(vn.scenes, sceneId) ==> r.scenes[j] == vn.scenes[j]
    ensures SceneIndex(vn.scenes, sceneId).Some? ==>
      var k := SceneIndex(vn.scenes, sceneId).value;
      var ids := vn.scenes[k].presentCharacterIds;
      && (charId in r.scenes[k].presentCharacterIds <==> isPresent)
      && (isPresent ==> r.scenes[k] == vn.scenes[k].(presentCharacterIds := if charId in ids then ids else ids + [charId]))
      && (!isPresent ==> CharacterRemovedFrom(vn.scenes[k], r.scenes[k], charId))
    ensures forall j :: 0 <= j < |vn.scenes| && Distinct(vn.scenes[j].presentCharacterIds) ==>
      Distinct(r.scenes[j].presentCharacterIds)
  {
    r := vn;
    match SceneIndex(vn.scenes, sceneId)
    case None =>
    case Some(k) =>
      var scene := vn.scenes[k];
      if isPresent {
        if charId !in scene.presentCharacterIds {
          scene := scene.(presentCharacterIds := scene.presentCharacterIds + [charId]);
        }
      } else {
        scene := scene.(presentCharacterIds := KeepUnless(scene.presentCharacterIds, Id, {charId}));
        var d := UnassignLines(scene.dialogue, charId);
        scene := scene.(dialogue := d);
      }
      r := r.(scenes := r.scenes[k := scene]);
  }

  /** `addDialogueLine`: an empty narrator line at the end of the first scene with that id. */
  method AddDialogueLine(vn: Novel, sceneId: string) returns (r: Novel)
    ensures r.(scenes := vn.scenes) == vn && |r.scenes| == |vn.scenes|
    ensures forall j :: 0 <= j < |vn.scenes| && Some(j) != SceneIndex(vn.scenes, sceneId) ==> r.scenes[j] == vn.scenes[j]
    ensures SceneIndex(vn.scenes, sceneId).Some? ==>
      var k := SceneIndex(vn.scenes, sceneId).value;
      r.scenes[k] == vn.scenes[k].(dialogue := vn.scenes[k].dialogue + [DialogueLine(None, None, "")])
  {
    r := vn;
    match SceneIndex(vn.scenes, sceneId)
    case None =>
    case Some(k) =>
      var scene := vn.scenes[k];
      scene := scene.(dialogue := scene.dialogue + [DialogueLine(None, None, "")]);
      r := r.(scenes := r.scenes[k := scene]);
  }

  /** The fields `updateDialogueLine` may set. */
  datatype LineEdit = SetCharacterId(characterId: Option<string>) | SetExpressionId(expressionId: Option<string>) | SetText(text: string)

  function ApplyLineEdit(line: DialogueLine, edit: LineEdit): DialogueLine
  {
    match edit
    case SetCharacterId(x) => line.(characterId := x)
    case SetExpressionId(x) => line.(expressionId := x)
    case SetText(x) => line.(text := x)
  }

  /**
   * `updateDialogueLine`: sets one field of line `index` of the first scene with that id.
   * When the scene exists but `index` is outside its dialogue, `scene.dialogue[index]` is
   * undefined and the field assignment throws: the result is `None` and the novel is not
   * replaced. Setting the speaker leaves the expression as it was.
   */
  method UpdateDialogueLine(vn: Novel, sceneId: string, index: int, edit: LineEdit) returns (r: Option<Novel>)
    ensures SceneIndex(vn.scenes, sceneId).None? ==> r == Some(vn)
    ensures SceneIndex(vn.scenes, sceneId).Some? ==>
      var k := SceneIndex(vn.scenes, sceneId).value;
      var d := vn.scenes[k].dialogue;
      if 0 <= index < |d| then
        r == Some(vn.(scenes := vn.scenes[k := vn.scenes[k].(dialogue := d[index := ApplyLineEdit(d[index], edit)])]))
      else r.None?
  {
    match SceneIndex(vn.scenes, sceneId)
    case None => r := Some(vn);
    case Some(k) =>
      var scene := vn.scenes[k];
      if 0 <= index < |scene.dialogue| {
        scene := scene.(dialogue := scene.dialogue[index := ApplyLineEdit(scene.dialogue[index], edit)]);
        r := Some(vn.(scenes := vn.scenes[k := scene]));
      } else {
        r := None;
      }
  }

  /**
   * `Array.prototype.splice(index, 1)`: a negative index counts from the end (clamped to 0),
   * an index at or past the end removes nothing.
   */
  function SpliceOne<T>(xs: seq<T>, index: int): (r: seq<T>)
    ensures 0 <= index < |xs| ==> r == xs[..index] + xs[index + 1..]
    ensures index >= |xs| ==> r == xs
    ensures -|xs| <= index < 0 ==> r == xs[..|xs| + index] + xs[|xs| + index + 1..]
    ensures index < -|xs| && xs != [] ==> r == xs[1..]
    ensures |r| == if xs == [] || index >= |xs| then |xs| else |xs| - 1
  {
    var start := if index < 0 then (if |xs| + index < 0 then 0 else |xs| + index)
                 else (if index < |xs| then index else |xs|);
    if start < |xs| then xs[..start] + xs[start + 1..] else xs
  }

  /**
   * `deleteDialogueLine`: splices one line out of the first scene with that id, but only
   * when that scene has more than one line, so no scene's dialogue is emptied by it.
   */
  method DeleteDialogueLine(vn: Novel, sceneId: string, index: int) returns (r: Novel)
    ensures r.(scenes := vn.scenes) == vn && |r.scenes| == |vn.scenes|
    ensures forall j :: 0 <= j < |vn.scenes| && Some(j) != SceneIndex(vn.scenes, sceneId) ==> r.scenes[j] == vn.scenes[j]
    ensures SceneIndex(vn.scenes, sceneId).Some? ==>
      var k := SceneIndex(vn.scenes, sceneId).value;
      var d := vn.scenes[k].dialogue;
      r.scenes[k] == if |d| > 1 then vn.scenes[k].(dialogue := SpliceOne(d, index)) else vn.scenes[k]
    ensures forall j :: 0 <= j < |vn.scenes| && |vn.scenes[j].dialogue| >= 1 ==> |r.scenes[j].dialogue| >= 1
  {
    r := vn;
    match SceneIndex(vn.scenes, sceneId)
    case None =>
    case Some(k) =>
      var scene := vn.scenes[k];
      if |scene.dialogue| > 1 {
        scene := scene.(dialogue := SpliceOne(scene.dialogue, index));
        r := r.(scenes := r.scenes[k := scene]);
      }
  }

  // ---------------------------------------------------------------------------
  // Choices

  /** The choice `addChoice` appends. */
  function NewChoice(nextSceneId: string): Choice
  {
    Choice("새 선택지", nextSceneId)
  }

  /** `addChoice`: `map` over the scenes, so every scene with that id gets the new last choice. */
  function AddChoice(vn: Novel, sceneId: string, nextSceneId: string): (r: Novel)
    ensures r.(scenes := vn.scenes) == vn && |r.scenes| == |vn.scenes|
    ensures forall k :: 0 <= k < |vn.scenes| && vn.scenes[k].id != sceneId ==> r.scenes[k] == vn.scenes[k]
    ensures forall k :: 0 <= k < |vn.scenes| && vn.scenes[k].id == sceneId ==>
      r.scenes[k] == vn.scenes[k].(choices := vn.scenes[k].choices + [NewChoice(nextSceneId)])
  {
    vn.(scenes := seq(|vn.scenes|, k requires 0 <= k < |vn.scenes| =>
      if vn.scenes[k].id == sceneId
      then vn.scenes[k].(choices := vn.scenes[k].choices + [NewChoice(nextSceneId)])
      else vn.scenes[k]))
  }

  /** The fields `updateChoice` may set. */
  datatype ChoiceEdit = SetChoiceText(text: string) | SetNextSceneId(nextSceneId: string)

  function ApplyChoiceEdit(c: Choice, edit: ChoiceEdit): Choice
  {
    match edit
    case SetChoiceText(x) => c.(text := x)
    case SetNextSceneId(x) => c.(nextSceneId := x)
  }

  /** One scene after `updateChoice`: choice `index` edited when it exists. */
  function EditChoiceAt(s: Scene, index: int, edit: ChoiceEdit): Scene
  {
    if 0 <= index < |s.choices|
    then s.(choices := s.choices[index := ApplyChoiceEdit(s.choices[index], edit)])
    else s
  }

  /**
   * `updateChoice`: goes through every scene and edits choice `index` of each one whose
   * id matches; the choice list keeps its length and every other choice.
   */
  method UpdateChoice(vn: Novel, sceneId: string, index: int, edit: ChoiceEdit) returns (r: Novel)
    ensures r.(scenes := vn.scenes) == vn && |r.scenes| == |vn.scenes|
    ensures forall k :: 0 <= k < |vn.scenes| ==>
      r.scenes[k] == if vn.scenes[k].id == sceneId then EditChoiceAt(vn.scenes[k], index, edit) else vn.scenes[k]
    ensures forall k :: 0 <= k < |vn.scenes| ==> |r.scenes[k].choices| == |vn.scenes[k].choices|
  {
    var scenes := vn.scenes;
    var i := 0;
    while i < |scenes|
      invariant 0 <= i <= |scenes| == |vn.scenes|
      invariant forall k :: 0 <= k < i ==>
        scenes[k] == if vn.scenes[k].id == sceneId then EditChoiceAt(vn.scenes[k], index, edit) else vn.scenes[k]
      invariant forall k :: i <= k < |scenes| ==> scenes[k] == vn.scenes[k]
    {
      var s := scenes[i];
      if s.id == sceneId && 0 <= index < |s.choices| {
        s := s.(choices := s.choices[index := ApplyChoiceEdit(s.choices[index], edit)]);
      }
      scenes := scenes[i := s];
      i := i + 1;
    }
    r := vn.(scenes := scenes);
  }

  /** `deleteChoice`: splices choice `index` out of the first scene with that id. */
  method DeleteChoice(vn: Novel, sceneId: string, index: int) returns (r: Novel)
    ensures r.(scenes := vn.scenes) == vn && |r.scenes| == |vn.scenes|
    ensures forall j :: 0 <= j < |vn.scenes| && Some(j) != SceneIndex(vn.scenes, sceneId) ==> r.scenes[j] == vn.scenes[j]
    ensures SceneIndex(vn.scenes, sceneId).Some? ==>
      var k := SceneIndex(vn.scenes, sceneId).value;
      r.scenes[k] == vn.scenes[k].(choices := SpliceOne(vn.scenes[k].choices, index))
  {
    r := vn;
    match SceneIndex(vn.scenes, sceneId)
    case None =>
    case Some(k) =>
      var scene := vn.scenes[k];
      scene := scene.(choices := SpliceOne(scene.choices, index));
      r := r.(scenes := r.scenes[k := scene]);
  }
}

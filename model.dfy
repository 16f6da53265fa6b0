/** The branching-story data model of `types.ts` and the id lookups every component performs. */
module Model {
  import opened Wrappers

  /** A named portrait variant of one character; `imageUrl` may be empty (no art yet). */
  datatype Expression = Expression(id: string, name: string, imageUrl: string)

  datatype Character = Character(id: string, name: string, expressions: seq<Expression>, aiPrompt: Option<string>)

  /** A labelled edge to another scene; the target id may dangle. */
  datatype Choice = Choice(text: string, nextSceneId: string)

  /** `characterId == None` is a narrator line. */
  datatype DialogueLine = DialogueLine(characterId: Option<string>, expressionId: Option<string>, text: string)

  datatype Scene = Scene(
    id: string,
    name: string,
    backgroundUrl: string,
    presentCharacterIds: seq<string>,
    dialogue: seq<DialogueLine>,
    choices: seq<Choice>,
    aiPrompt: Option<string>)

  /** The root aggregate (`VisualNovel`). */
  datatype Novel = Novel(
    title: string,
    description: string,
    coverUrl: string,
    characters: seq<Character>,
    scenes: seq<Scene>,
    startSceneId: string)

  /** The name of the neutral expression, the fallback portrait. */
  const Neutral: string := "중립"

  /** JavaScript truthiness of a `string | null`: null and the empty string are falsy. */
  predicate Truthy(s: Option<string>)
  {
    s.Some? && s.value != ""
  }

  /** A scene with zero choices is an ending. */
  predicate IsEnding(s: Scene)
  {
    |s.choices| == 0
  }

  // Keys used with the generic helpers (named so that every use is the same function).
  function SceneId(s: Scene): string { s.id }
  function CharacterId(c: Character): string { c.id }
  function ChoiceTarget(c: Choice): string { c.nextSceneId }
  function ExpressionId(e: Expression): string { e.id }
  function ExpressionName(e: Expression): string { e.name }

  /** `xs.findIndex(x => key(x) === id)`: the FIRST position whose key is `id`. */
  function IndexOf<T>(xs: seq<T>, key: T -> string, id: string): (r: Option<nat>)
    ensures r.Some? ==> r.value < |xs| && key(xs[r.value]) == id
    ensures r.Some? ==> forall j :: 0 <= j < r.value ==> key(xs[j]) != id
    ensures r.None? ==> forall j :: 0 <= j < |xs| ==> key(xs[j]) != id
  {
    if xs == [] then None
    else if key(xs[0]) == id then Some(0)
    else match IndexOf(xs[1..], key, id)
      case None => None
      case Some(i) => Some(i + 1)
  }

  /** `vn.scenes.findIndex(s => s.id === id)`. */
  function SceneIndex(scenes: seq<Scene>, id: string): Option<nat>
  {
    IndexOf(scenes, SceneId, id)
  }

  /** `vn.scenes.find(s => s.id === id)`: the FIRST scene with that id. */
  function FindScene(scenes: seq<Scene>, id: string): (r: Option<Scene>)
    ensures r.Some? ==> r.value in scenes && r.value.id == id
    ensures r.None? <==> forall s :: s in scenes ==> s.id != id
    ensures r.Some? ==> r.value == scenes[SceneIndex(scenes, id).value]
  {
    match SceneIndex(scenes, id)
    case None => None
    case Some(i) => Some(scenes[i])
  }

  /** `vn.characters.findIndex(c => c.id === id)`. */
  function CharacterIndex(cs: seq<Character>, id: string): Option<nat>
  {
    IndexOf(cs, CharacterId, id)
  }

  /** `vn.characters.find(c => c.id === id)`: the FIRST character with that id. */
  function FindCharacter(cs: seq<Character>, id: string): (r: Option<Character>)
    ensures r.Some? ==> r.value in cs && r.value.id == id
    ensures r.None? <==> forall c :: c in cs ==> c.id != id
    ensures r.Some? ==> r.value == cs[CharacterIndex(cs, id).value]
  {
    match CharacterIndex(cs, id)
    case None => None
    case Some(i) => Some(cs[i])
  }

  /** `expressions.findIndex(e => e.id === id)`. */
  function ExpressionIndex(es: seq<Expression>, id: string): Option<nat>
  {
    IndexOf(es, ExpressionId, id)
  }

  /** `expressions.find(e => e.id === id)`: the FIRST expression with that id. */
  function FindExpression(es: seq<Expression>, id: string): (r: Option<Expression>)
    ensures r.Some? ==> r.value in es && r.value.id == id
    ensures r.None? <==> forall e :: e in es ==> e.id != id
    ensures r.Some? ==> r.value == es[ExpressionIndex(es, id).value]
  {
    match ExpressionIndex(es, id)
    case None => None
    case Some(i) => Some(es[i])
  }

  /** `expressions.find(e => e.name === name)`: the FIRST expression with that name. */
  function FindExpressionNamed(es: seq<Expression>, name: string): (r: Option<Expression>)
    ensures r.Some? ==> r.value in es && r.value.name == name
    ensures r.None? <==> forall e :: e in es ==> e.name != name
    ensures r.Some? ==> r.value == es[IndexOf(es, ExpressionName, name).value]
  {
    match IndexOf(es, ExpressionName, name)
    case None => None
    case Some(i) => Some(es[i])
  }

  /** `find(e => e.name === '중립') || expressions[0]`: the first neutral expression, else the first one. */
  function NeutralOrFirst(es: seq<Expression>): (r: Option<Expression>)
    ensures r.None? <==> es == []
    ensures r.Some? ==> r.value in es
    ensures (exists e :: e in es && e.name == Neutral) ==>
      r.Some? && r.value.name == Neutral && r.value == es[IndexOf(es, ExpressionName, Neutral).value]
    ensures (forall e :: e in es ==> e.name != Neutral) && es != [] ==> r == Some(es[0])
  {
    match FindExpressionNamed(es, Neutral)
    case Some(e) => Some(e)
    case None => if es == [] then None else Some(es[0])
  }

  /** The ids of all scenes. */
  function SceneIds(vn: Novel): set<string>
  {
    set s | s in vn.scenes :: s.id
  }
}

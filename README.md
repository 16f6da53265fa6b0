# Visual Novel Creator: a verified model of the story core

Visual Novel Creator is a browser tool for writing branching visual novels. A novel has:

- characters, each with named portrait expressions;
- scenes, each with a background, the characters present, a list of dialogue lines and a list of choices;
- a start scene.

The tool edits a novel, shows it as a tree of scenes, plays it in an in-editor preview, and exports it in two forms: a Ren'Py script and a single HTML page that carries its own copy of the player.

This project models the core of that tool in Dafny and proves what it does:

- **Story model** (`model.dfy`, `wrappers.dfy`, `seqs.dfy`): the records of `types.ts` as datatypes. `string | null` and `T | undefined` become `Option`. The model also holds the `find`-by-id lookups every component relies on (the first match wins) and the neutral-or-first portrait rule.
- **Editing actions** (`editing.dfy`): every action of the `useVisualNovel` hook except `updateCharacter`. Each action deep-copies the novel before editing it, so each is a transformation from the old novel to the new one.
  - Actions built from spreads and `map` are functions.
  - Actions that mutate the copied draft (`forEach`, `push`, `splice`, field writes) are methods with the source's loops.
  - Fresh ids made from `Date.now()` are parameters.
- **Scene tree** (`scene_tree.dfy`): the breadth-first reachability pass of the `SceneTree` panel and the orphan list it yields, written as the source's queue loop and proved against a path-based definition of reachability. Also the recursive `SceneNode` expansion, which cuts cycles at repeat leaves, as a datatype built by a recursive function.
- **Preview player** (`playback.dfy`): `GamePlayer`, in two parts.
  - The pure picture of one moment of play: which portrait each present character shows, where its sprite stands, how the speaker is emphasised, the speaker banner, and the one affordance under the text.
  - A class for the title/playing state machine, with its scene id and dialogue index.
- **Exported player** (`web_runtime.dfy`): the second copy of the player that the HTML export embeds (`WEB_GAME_SCRIPT`), as a class over its globals. It is proved to draw what the preview draws, and each place where the two differ is stated and proved below.
- **Ren'Py export** (`renpy_text.dfy`, `renpy_export.dfy`, `renpy_properties.dfy`, `renpy_references.dfy`):
  - `toRenpyId` and the quoting of text inside Ren'Py string literals.
  - `exportToRenpy` as the source's `script +=` loops, proved to build exactly the script given by a list of statements.
  - Properties of that script: its labels, images, definitions, hides, shows, say statements, menus, jumps and returns, and that every name it uses is declared.
- **HTML export** (`html_export.dfy`): what `exportToHtml` computes and the page template interpolates: the `<`-escaped story snapshot, the title, the description paragraph and the title background.
- **Built-in novels** (`fixtures.dfy`, `demo_facts.dfy`): the demo story and the empty template of `constants.ts`, with facts about their graphs and scripts.

## Divergences kept as written

The two outputs and the preview do not agree in every case. The model keeps each difference and proves it:

- **Ren'Py stage positions count unresolved ids.** The Ren'Py script picks `positions[index % 4]` using the index in `presentCharacterIds`, unresolved ids included. The players index the list after unresolved ids are dropped. Behind one unknown id, a lone character stands `at right` in Ren'Py (`RenpyProperties.StagePositionCountsUnresolved`) but is centred in the player (`RenpyProperties.PlayerCentresLoneCharacter`).
- **Unresolved speakers are dropped.** A line whose speaker id is set but names no character produces no say statement at all (`RenpyProperties.SceneSaysEveryLine`). The players still show such a line's text, without a banner.
- **Underscores, not deletion.** `toRenpyId` turns every illegal character into `_` (`RenpyText.UnderscoresNotDeletion`). So different ids can share a tag (`RenpyText.DistinctIdsShareTag`).
- **Dangling jumps.** A choice whose target matches no scene still gets its `jump`, and the script has no label of that name (`RenpyReferences.DanglingJumpHasNoLabel`).
- **A choice back to the same scene.** The exported player restarts the scene at its first line. The preview keeps its index, because it resets the index only when the scene id changes (`WebRuntime.SelfLoopChoiceDiverges`).
- **Duplicate scene ids.** `find` takes the first scene with an id. The scene tree's `Map` keeps the last one (`SceneTree.SceneMapLastWins`). The two agree when ids are unique (`SceneTree.SceneMapAgreesWithFind`).
- **A choice without a target.** A choice whose target is empty makes the exported player alert, because no scene has the empty id. In the preview the effect in `App.tsx` replaces the empty scene id with the start scene, so play restarts there (`WebRuntime.UntargetedChoiceDiverges`, `Playback.PreviewPlayer.Choose`).
- **Scenes without a background.** The exported player paints such a scene `#1f2937`. The preview shows its black container. The two backdrops agree exactly when the scene has a background URL (`WebRuntime.BackdropsAgreeIffBackground`).
- **Speaker banners.** The preview hides the banner for an empty speaker id and for an empty character name. The exported player shows it in both cases (`WebRuntime.RenderAgreesWithPreview`).

## Model

| member | source | states |
|---|---|---|
| Model.IndexOf | hooks/useVisualNovel.ts:70 | `findIndex` by key: the index found holds the id and no earlier element does; `None` exactly when no element has the id |
| Model.FindScene | components/GamePlayer.tsx:119 | the scene found is in the list and has the id; `None` iff no scene has it; it is the first scene with the id |
| Model.FindCharacter | components/GamePlayer.tsx:156 | the character found is in the list, has the id and is the first such; `None` iff no character has it |
| Model.FindExpression | components/GamePlayer.tsx:28 | the expression found is the character's and has the id; it is the one at the first index with the id; `None` iff none has it |
| Model.FindExpressionNamed | components/GamePlayer.tsx:33 | the expression found is the character's and has the name; no earlier expression has the name; `None` iff none has it |
| Model.NeutralOrFirst | components/GamePlayer.tsx:33 | `None` iff there are no expressions; when one is named `중립`, the first expression with that name; otherwise the first expression |
| Seqs.KeepUnless | hooks/useVisualNovel.ts:54 | `filter` by key: an element is kept iff it was there and its key is not dropped; one element is kept or dropped by its key; nothing dropped leaves the list unchanged; distinct lists stay distinct |
| Seqs.KeepUnlessAppend | hooks/useVisualNovel.ts:54 | filtering a concatenation is the concatenation of the filtered parts, so order and repeats are kept |
| Seqs.KeepUnlessAgrees | components/SceneTree.tsx:120 | two drop sets that agree on the list's keys filter the list alike |
| Editing.UpdateTitle | hooks/useVisualNovel.ts:28 | the title is the new one and every other field is unchanged |
| Editing.UpdateDescription | hooks/useVisualNovel.ts:30 | the description is the new one and every other field is unchanged |
| Editing.UpdateCoverUrl | hooks/useVisualNovel.ts:32 | the cover URL is the new one and every other field is unchanged |
| Editing.UpdateStartSceneId | hooks/useVisualNovel.ts:34 | the start id is stored as given, unchecked, and every other field is unchanged |
| Editing.AddCharacter | hooks/useVisualNovel.ts:36-50 | one character is appended and nothing else changes; it has the fresh id and four expressions without art, `중립` first, with distinct ids |
| Editing.UpdateCharacterName | hooks/useVisualNovel.ts:68-74 | the first character with the id gets the name, every other position is unchanged, and an unknown id changes nothing |
| Editing.UpdateCharacterAiPrompt | hooks/useVisualNovel.ts:76-82 | the first character with the id gets the prompt, every other position is unchanged, and an unknown id changes nothing |
| Editing.SetExpressionUrl | hooks/useVisualNovel.ts:88-89 | only the first expression with the id gets the URL; the other expressions and fields are unchanged |
| Editing.UpdateCharacterExpressionUrl | hooks/useVisualNovel.ts:84-93 | the first character with the id has its expression's art set, all other characters are unchanged, and an unknown id changes nothing |
| Editing.UnassignLines | hooks/useVisualNovel.ts:57-62 | exactly the lines spoken by the character lose both speaker and expression; texts and all other lines are unchanged |
| Editing.DeleteCharacter | hooks/useVisualNovel.ts:52-66 | the character is gone; in every scene its id leaves the present list and its lines become narrator lines; no reference to it remains; nothing else changes |
| Editing.AddScene | hooks/useVisualNovel.ts:95-98 | one scene is appended: the fresh id, one narrator line and no choices, so it is an ending |
| Editing.PruneChoices | hooks/useVisualNovel.ts:104 | a choice survives iff it was there and does not target the deleted id; the rest of the scene is unchanged |
| Editing.DeleteScene | hooks/useVisualNovel.ts:100-108 | the kept scenes are those without the id, in order, each with its choices to the id pruned; no scene and no choice refers to the id; the start id is unchanged |
| Editing.UpdateScene | hooks/useVisualNovel.ts:110-115 | every scene with the id gets the field and every other scene is unchanged; an unknown id changes nothing |
| Editing.ToggleCharacterInScene | hooks/useVisualNovel.ts:117-135 | only the first scene with the id changes; the character is present afterwards iff `isPresent`; adding never duplicates an id; removing unassigns that scene's lines by the character |
| Editing.AddDialogueLine | hooks/useVisualNovel.ts:137-143 | the first scene with the id gets an empty narrator line at the end; every other scene is unchanged |
| Editing.UpdateDialogueLine | hooks/useVisualNovel.ts:145-154 | the line at the index gets the field; an unknown scene changes nothing; an index outside the dialogue throws, and the result is `None` |
| Editing.SpliceOne | hooks/useVisualNovel.ts:160 | `splice(index, 1)`: removes the element at the index, counts a negative index from the end, removes nothing at or past the end; the length drops by one iff something is removed |
| Editing.DeleteDialogueLine | hooks/useVisualNovel.ts:156-164 | the line is spliced out only when the scene has more than one line; a scene with dialogue never loses its last line |
| Editing.AddChoice | hooks/useVisualNovel.ts:166-172 | every scene with the id gets the new choice at the end; every other scene is unchanged |
| Editing.UpdateChoice | hooks/useVisualNovel.ts:174-182 | every scene with the id has choice `index` edited when it exists; choice counts and all other scenes are unchanged |
| Editing.DeleteChoice | hooks/useVisualNovel.ts:184-190 | the first scene with the id has choice `index` spliced out; every other scene is unchanged |
| SceneTree.SceneMap | components/SceneTree.tsx:99 | every scene's id is a key, and each key maps to a scene of the list carrying that id |
| SceneTree.SceneMapLastWins | components/SceneTree.tsx:99 | the map holds, for each id, the last scene with that id |
| SceneTree.SceneMapAgreesWithFind | components/SceneTree.tsx:124 | with unique ids, the map has a key iff `find` finds the scene, and both give the same scene |
| SceneTree.NonEmptyTargetsHold | components/SceneTree.tsx:110-111 | every choice with a non-empty target contributes an edge |
| SceneTree.NonEmptyTargetsCome | components/SceneTree.tsx:110-111 | every edge is the non-empty target of some choice |
| SceneTree.ReachStart | components/SceneTree.tsx:102-104 | a non-empty start that names a scene is reachable |
| SceneTree.ReachStep | components/SceneTree.tsx:110-114 | the target of an edge out of a reachable scene is reachable |
| SceneTree.ClosedSetHoldsPath | components/SceneTree.tsx:103-117 | a set that holds the start and is closed under edges holds the end of every walk |
| SceneTree.SuccessorsAreTargets | components/SceneTree.tsx:105-116 | every id the pass can mark is a choice target, which bounds the loop |
| SceneTree.EnqueueTargets | components/SceneTree.tsx:110-115 | the marked set grows by exactly the scene's non-empty targets; the queue keeps each marked id once; everything marked is reachable |
| SceneTree.ExpandedPrefixGrows | components/SceneTree.tsx:106-116 | dequeuing one id and marking its edges extends the prefix of the queue whose edges are all followed |
| SceneTree.ExhaustedQueueIsClosed | components/SceneTree.tsx:106-117 | once the queue is exhausted, the marked set is closed under edges and holds every reachable id |
| SceneTree.ComputeReachable | components/SceneTree.tsx:100-118 | the loop ends, and an id is marked iff a walk from a non-empty existing start reaches it; the start is marked; the set is closed under edges |
| SceneTree.Orphans | components/SceneTree.tsx:120 | the orphans are the scenes, in order and with repeats, less those whose id is reachable; a scene is an orphan iff it is not reachable; with an empty or unknown start every scene is an orphan; a scene carrying the start id never is |
| SceneTree.Expand | components/SceneTree.tsx:16-36 | a node names its scene, and it is a repeat leaf iff its id is among the ancestors |
| SceneTree.ExpandChildren | components/SceneTree.tsx:31-36 | there are at most as many children as choices |
| SceneTree.FewerUnvisited | components/SceneTree.tsx:29 | adding the scene's id to the ancestors leaves fewer ids unvisited, so the expansion terminates on any graph |
| SceneTree.ChildrenFollowChoices | components/SceneTree.tsx:31-36 | the children are the choices whose target resolves, in order, labelled with the choice text and rooted at the target |
| SceneTree.ExpandCutsAtRepeats | components/SceneTree.tsx:20-29 | every repeat leaf names an ancestor and no expanded node does, so the expanded ids on a root-to-leaf path are distinct |
| SceneTree.ChildrenCutAtRepeats | components/SceneTree.tsx:78 | each child subtree is cut at repeats relative to its own copy of the ancestors plus the parent |
| SceneTree.ExpandDepth | components/SceneTree.tsx:29 | the depth is at most one more than the ids not yet on the path |
| SceneTree.ChildrenDepth | components/SceneTree.tsx:78 | the children's depth is at most the ids not yet on the path |
| SceneTree.BuildSceneTree | components/SceneTree.tsx:124-139 | the error shows iff no scene has the start id; otherwise the root is an expanded start node |
| SceneTree.TreeDepthBound | components/SceneTree.tsx:124-137 | the tree is at most one level deeper than the number of distinct scene ids |
| SceneTree.MapHoldsScene | components/SceneTree.tsx:99 | with unique ids the map holds each scene under its own id |
| SceneTree.ExpandReachable | components/SceneTree.tsx:16-36 | with unique non-empty ids, every node the expansion of a reachable scene draws is reachable |
| SceneTree.ChildrenReachable | components/SceneTree.tsx:31-36 | the children of a reachable scene expand only to reachable scenes |
| SceneTree.ChildReachable | components/SceneTree.tsx:34 | a choice target that resolves to a scene is reachable from a reachable parent |
| SceneTree.TreeScenesAreReachable | components/SceneTree.tsx:128-146 | with unique non-empty ids, no scene drawn in the tree is also listed as an orphan |
| Playback.ShownExpression | components/GamePlayer.tsx:24-34 | when the character speaks and has the requested id, that expression; otherwise the neutral-or-first one; `None` iff there are no expressions |
| Playback.SpriteImage | components/GamePlayer.tsx:36 | when a portrait is shown, the URL is that portrait's art; a non-empty URL is the art of one of the character's expressions; a character without expressions has none |
| Playback.SpriteSpreadEnds | components/GamePlayer.tsx:53 | with two or more sprites the first stands at 15 and the last at 85 |
| Playback.SpriteLeftBounds | components/GamePlayer.tsx:49-56 | every sprite position lies in [15, 85] |
| Playback.SpriteLeftIncreasing | components/GamePlayer.tsx:53 | the position strictly increases with the index |
| Playback.SpriteLeft | components/GamePlayer.tsx:49-56 | a lone sprite stands at 50; no sprite stands left of 15 |
| Playback.EmphasisOf | components/GamePlayer.tsx:43-45 | full brightness, full scale and layer 10 each hold iff the character speaks; a silent character is dimmer, smaller and lower |
| Playback.SpeakerStandsOut | components/GamePlayer.tsx:43-45 | the speaker is drawn at brightness 1, scale 1 and z-index 10, and the others at 0.6, 0.95 and 5 |
| Playback.SpriteAt | components/GamePlayer.tsx:23-58 | a sprite is drawn iff its portrait has art; it shows that art, sits at the character's place in the filtered list and is emphasised iff the character speaks |
| Playback.Sprites | components/GamePlayer.tsx:171-180 | one slot per present character, in order |
| Playback.OnlyTheSpeakerIsEmphasised | components/GamePlayer.tsx:175 | a drawn sprite has the speaking emphasis iff the line names its character |
| Playback.PresentCharacters | components/GamePlayer.tsx:155-157 | the resolved characters, unresolved ids dropped; one id gives its character or nothing; every resolving id is kept; no longer than the ids, and as long when all resolve |
| Playback.PresentCharactersCons | components/GamePlayer.tsx:155-157 | the first id's character, if it resolves, comes before the rest's |
| Playback.PresentCharactersAppend | components/GamePlayer.tsx:155-157 | the characters of two id lists in a row are those of each list, in order |
| Playback.AffordanceOf | components/GamePlayer.tsx:195-232 | exactly one control: continue iff not on the last line; the scene's choices on the last line of a branching scene; the restart button on the last line of an ending |
| Playback.PreviewBanner | components/GamePlayer.tsx:150-153 | the banner shows iff the speaker id is non-empty and names a character with a non-empty name, and then it shows that name |
| Playback.TitleBackground | components/GamePlayer.tsx:256 | the cover when set, else the start scene's background when the scene exists, else empty |
| Playback.PreviewBackdrop | components/GamePlayer.tsx:160-164 | a scene with a background URL shows that picture; one without shows the black container |
| Playback.PreviewView | components/GamePlayer.tsx:126-142 | the title screen iff in title mode; the error iff the scene is missing; gameplay iff the index has a line; the title screen shows the title background and the description iff it is non-empty |
| Playback.EmptySceneShowsNothing | components/GamePlayer.tsx:137-140 | a scene with no dialogue renders nothing at index 0, so its choices never appear |
| Playback.InRangeIndexDraws | components/GamePlayer.tsx:137-148 | an index the player can hold in a scene with lines always draws the gameplay frame |
| Playback.PreviewPlayer.constructor | components/GamePlayer.tsx:242 | the player starts on the title screen, or playing when `startFromTitle` is false, at index 0 |
| Playback.PreviewPlayer.StartGame | components/GamePlayer.tsx:246-249 | from the title screen: the start scene, playing, index 0; otherwise nothing changes |
| Playback.PreviewPlayer.Restart | components/GamePlayer.tsx:251-253 | back to the title screen only from an ending's restart button; otherwise nothing changes |
| Playback.PreviewPlayer.Advance | components/GamePlayer.tsx:144-148 | the index moves on by one exactly when the continue indicator is shown; otherwise nothing changes |
| Playback.PreviewPlayer.Choose | components/GamePlayer.tsx:122-124 | a shown choice starts play; a target equal to the current scene changes nothing else; any other target resets the index and becomes the scene, an empty target falling back to the start scene; otherwise nothing changes |
| Playback.ContinueIffAdvances | components/GamePlayer.tsx:142-148 | the continue indicator shows iff a next line exists |
| Playback.ChoicesOnlyOnLastLine | components/GamePlayer.tsx:195-213 | choices and the ending appear only on the last line, so advancing from 0 visits every line first |
| WebRuntime.WebBanner | services/exportService.ts:122-130 | the banner shows iff the line names an existing character, even one with an empty id or name |
| WebRuntime.WebRender | services/exportService.ts:79-131 | an alert iff the scene is missing; a throw iff the index has no line; otherwise a drawn frame |
| WebRuntime.WebBackdrop | services/exportService.ts:84-85 | a scene with a background URL shows that picture; one without is painted `#1f2937` |
| WebRuntime.BackdropsAgreeIffBackground | services/exportService.ts:84-85 | the exported player's backdrop equals the preview's iff the background URL is non-empty |
| WebRuntime.UntargetedChoiceDiverges | services/exportService.ts:145-150 | on a scene whose choice has an empty target, the preview restarts at the start scene and draws; the exported player alerts |
| WebRuntime.RenderAgreesWithPreview | services/exportService.ts:84-175 | on any state with a line, both players draw the same sprites, text and control; the backdrops agree iff the scene has a background URL; the banners differ exactly for an empty speaker id or an empty name |
| WebRuntime.MissingLineDiffers | services/exportService.ts:87-95 | with no line at the index the exported player throws while the preview renders nothing |
| WebRuntime.WebGame.constructor | services/exportService.ts:51-52 | the page loads on the title screen at the start scene and index 0, with nothing drawn |
| WebRuntime.WebGame.Render | services/exportService.ts:79-175 | a drawn frame replaces the controls; an alert or a throw leaves the old ones in place; the globals are unchanged |
| WebRuntime.WebGame.StartGame | services/exportService.ts:64-70 | from the title screen: the start scene at index 0, then a render; otherwise nothing changes |
| WebRuntime.WebGame.ResetGame | services/exportService.ts:72-77 | the ending's button raises the title screen and restores the start scene and index 0, without rendering |
| WebRuntime.WebGame.ChooseChoice | services/exportService.ts:145-150 | a shown choice button moves to its target at index 0 and, when that scene draws, its controls replace the old ones; otherwise nothing changes |
| WebRuntime.WebGame.HandleScreenClick | services/exportService.ts:178-187 | while playing, advances by one and redraws iff the scene exists and this is not its last line; otherwise nothing changes |
| WebRuntime.ClickAgreesWithPreview | services/exportService.ts:183 | a click advances the exported player iff the preview shows its continue indicator |
| WebRuntime.SelfLoopChoiceDiverges | services/exportService.ts:145-150 | on a scene whose choice leads back to itself, the preview stays on line 1 and the exported player returns to line 0 |
| RenpyText.ReplaceIllegal | services/exportService.ts:4 | the same length; each character outside `[a-zA-Z0-9_]` becomes one `_` and the others are kept |
| RenpyText.AsciiLower | services/exportService.ts:4 | the same length; each ASCII capital becomes its small letter and every other character is kept |
| RenpyText.RenpyId | services/exportService.ts:4 | the same length; only `[a-z0-9_]`; word characters lower-cased in place; every other character becomes `_` |
| RenpyText.RenpyIdIdempotent | services/exportService.ts:4 | sanitising a tag again changes nothing, so a tag is referenced exactly as it was declared |
| RenpyText.RenpyIdFixesTags | services/exportService.ts:4 | a text made only of tag characters is its own tag |
| RenpyText.RenpyIdAppend | services/exportService.ts:208 | sanitising distributes over concatenation, so the `bg_` prefix survives as it is |
| RenpyText.UnderscoresNotDeletion | services/exportService.ts:4 | `장면 1` becomes `___1`: illegal characters turn into underscores |
| RenpyText.DistinctIdsShareTag | services/exportService.ts:4 | `Scene-2` and `scene_2` both become `scene_2` |
| RenpyText.LowerNeutralIsNeutral | services/exportService.ts:245 | the lower-cased name is `중립` iff the name is `중립` |
| RenpyText.EscapeQuoteOnly | services/exportService.ts:267 | the source's quote escaping: a text without the quote is unchanged; every quote in the result follows a backslash |
| RenpyText.Escape | services/exportService.ts:267 | the corrected escape: a text with neither quote nor backslash is unchanged; every quote in the result follows a backslash |
| RenpyText.ReadLiteral | services/exportService.ts:267-275 | when Ren'Py's reading of a quoted text closes, it closes at a quote character |
| RenpyText.EscapeRoundTrip | services/exportService.ts:267 | with backslashes doubled, every text reads back exactly and its literal closes at the quote written after it |
| RenpyText.QuoteOnlySufficesWithoutBackslash | services/exportService.ts:267 | for text without backslashes, the source's quote-only escaping equals the round-tripping escape |
| RenpyText.TrailingBackslashBreaksLiteral | services/exportService.ts:267 | as written, the line `C:\` yields a literal that never closes; with backslashes doubled it reads back |
| RenpyExport.Emit | services/exportService.ts:192 | `script += line + '\n'` keeps the script equal to the rendering of the statements written so far |
| RenpyExport.RenderWith | services/exportService.ts:192-290 | declarations and labels start at the margin; a label's body is indented by four spaces; menu arms and their jumps by eight or more |
| RenpyExport.Render | services/exportService.ts:218-284 | each statement's line as the source writes it; a line quoting no backslash is the corrected line |
| RenpyExport.ExportToRenpy | services/exportService.ts:190-295 | the generated script is exactly the statement list rendered line by line, with the source's quote-only escaping |
| RenpyExport.EmitFrontMatter | services/exportService.ts:192-221 | sections 1 and 2 are written in full |
| RenpyExport.EmitHeader | services/exportService.ts:192-196 | the two comment lines, a blank line and the first section header |
| RenpyExport.EmitImages | services/exportService.ts:196-212 | the character images, then the background images |
| RenpyExport.EmitCharacterImages | services/exportService.ts:197-205 | each character's expression images, each group followed by a blank line |
| RenpyExport.EmitExpressionImages | services/exportService.ts:199-203 | one `image` per expression, in order |
| RenpyExport.EmitBackgroundImages | services/exportService.ts:207-211 | one background `image` per scene, in order |
| RenpyExport.EmitDefinitions | services/exportService.ts:214-221 | the section header, one `define` per character in order, and a blank line |
| RenpyExport.EmitEntry | services/exportService.ts:223-226 | `label start:` and the jump to the start scene's tag |
| RenpyExport.EmitScenes | services/exportService.ts:228-292 | one block per scene, in scene order |
| RenpyExport.EmitScene | services/exportService.ts:228-292 | label, background, hides, staging, dialogue, menu or return, blank line |
| RenpyExport.EmitHides | services/exportService.ts:235-237 | one `hide` per character of the novel |
| RenpyExport.EmitStaging | services/exportService.ts:239-254 | the present characters' shows, then a blank line, only when the scene lists anyone |
| RenpyExport.EmitStageShow | services/exportService.ts:241-251 | a show at `positions[index % 4]` when the id resolves and the character has an expression |
| RenpyExport.EmitDialogue | services/exportService.ts:256-277 | every line's statements, in order |
| RenpyExport.EmitLine | services/exportService.ts:256-276 | the optional expression change, then the say statement |
| RenpyExport.EmitExpressionChange | services/exportService.ts:257-265 | a show when speaker and expression are both set and resolve |
| RenpyExport.EmitSpeech | services/exportService.ts:267-276 | a resolved speaker's say, a narrator say, or nothing for an unresolved speaker |
| RenpyExport.EmitClosing | services/exportService.ts:279-290 | a menu when the scene has choices, otherwise the ending comment and `return` |
| RenpyExport.EmitMenuArms | services/exportService.ts:281-286 | one menu item and its jump per choice, in order |
| RenpyProperties.EntryOnly | services/exportService.ts:225-226 | the entry holds `label start:` and the jump to the start scene's tag, nothing else named |
| RenpyProperties.ClosingFor | services/exportService.ts:279-290 | a scene's closing holds a `return` iff it is an ending |
| RenpyProperties.SceneBlockFor | services/exportService.ts:228-292 | a block holds its own label, a `return` iff the scene is an ending, and no other label or return |
| RenpyProperties.SceneBlocksLabels | services/exportService.ts:228-230 | the scene blocks' labels are the scenes' tags, one per scene, in scene order |
| RenpyProperties.LabelsInSceneOrder | services/exportService.ts:225-230 | the script's labels are `start`, then one label per scene in scene order |
| RenpyProperties.SceneLabelsComplete | services/exportService.ts:229-230 | every scene's label is in the script |
| RenpyProperties.SceneLabelsSound | services/exportService.ts:229-230 | every scene label belongs to one of the scenes |
| RenpyProperties.LabelCount | services/exportService.ts:225-230 | there is one label more than there are scenes |
| RenpyProperties.SceneLabelsLength | services/exportService.ts:228-230 | one scene label per scene |
| RenpyProperties.SceneBlocksReturns | services/exportService.ts:287-289 | the scene blocks hold one `return` per ending |
| RenpyProperties.ReturnsCountEndings | services/exportService.ts:279-290 | the script has exactly one `return` per ending scene |
| RenpyProperties.ScriptReturns | services/exportService.ts:287-289 | every `return` of the script is in a scene block |
| RenpyProperties.CharacterImagesDeclared | services/exportService.ts:197-205 | exactly one character image per (character, expression) pair, in order, and no other |
| RenpyProperties.ExpressionImagesComplete | services/exportService.ts:199-202 | each expression of a character has its image |
| RenpyProperties.ImagePairsComplete | services/exportService.ts:197-203 | every expression of every character has its image declared |
| RenpyProperties.BackgroundImagesDeclared | services/exportService.ts:207-211 | exactly one background image per scene, in scene order, and no other |
| RenpyProperties.BackgroundImagesAt | services/exportService.ts:207-211 | the k-th background image is the k-th scene's |
| RenpyProperties.CharactersDefined | services/exportService.ts:216-220 | exactly one `define` per character, in order, and no other |
| RenpyProperties.DefinitionsAt | services/exportService.ts:216-220 | the k-th definition is the k-th character's, under its display name |
| RenpyProperties.HidesAt | services/exportService.ts:235-237 | the k-th hide is the k-th character's |
| RenpyProperties.SceneHidesEveryCharacter | services/exportService.ts:235-237 | every scene block hides every character of the novel, present or not, in order, and nothing else |
| RenpyProperties.MenuArmsItems | services/exportService.ts:281-286 | the menu items are the choices' texts, in order |
| RenpyProperties.MenuArmsJumps | services/exportService.ts:281-286 | the menu jumps go to the choices' target tags, in order |
| RenpyProperties.SceneBlockMenu | services/exportService.ts:279-286 | the block's menu items and jumps are exactly those of its menu arms |
| RenpyProperties.SceneMenuFollowsChoices | services/exportService.ts:279-286 | a scene's menu offers its choices' texts in order and jumps to their targets in order |
| RenpyProperties.LineSays | services/exportService.ts:267-276 | a line says one statement unless its set speaker does not resolve |
| RenpyProperties.DialogueSays | services/exportService.ts:256-277 | the say statements plus the unresolved-speaker lines number the lines |
| RenpyProperties.SceneSaysEveryLine | services/exportService.ts:256-277 | a scene says every line except those whose set speaker does not resolve |
| RenpyProperties.LowerNeutralIsNamedNeutral | services/exportService.ts:245 | the lower-casing neutral search finds the expression named `중립` |
| RenpyProperties.RenpyNeutralIsPlayers | services/exportService.ts:245 | the staged expression is the player's neutral-or-first |
| RenpyProperties.StageShowMatchesPlayer | services/exportService.ts:241-251 | a present character is staged with the portrait the player shows while it is silent |
| RenpyProperties.StagePositionCountsUnresolved | services/exportService.ts:241-248 | behind one unknown id, a lone character is staged `at right` |
| RenpyProperties.StageShowsPair | services/exportService.ts:241 | the shows of two ids are those of the first at position 0, then the second at position 1 |
| RenpyProperties.PlayerCentresLoneCharacter | components/GamePlayer.tsx:155-157 | behind one unknown id, the player draws the lone character centred at 50 |
| RenpyProperties.ExpressionChangeMatchesPlayer | services/exportService.ts:257-264 | a show precedes a line iff speaker and expression are set and resolve, and it shows the player's portrait for the speaker |
| RenpyProperties.SayReadsBack | services/exportService.ts:272-275 | for text without a backslash, the quoted text of a say statement as written reads back as the line's text and closes at the end of the line |
| RenpyProperties.MenuItemReadsBack | services/exportService.ts:283-284 | for text without a backslash, the quoted text of a menu item as written reads back as the choice's text and closes before the colon |
| RenpyProperties.DefineReadsBack | services/exportService.ts:218-219 | for a name without a backslash, the quoted name of a definition as written reads back as the character's name |
| RenpyProperties.BackslashSayNeverCloses | services/exportService.ts:267-275 | the narrator line `C:\` as written gives a literal that never closes |
| RenpyProperties.CorrectedSayReadsBack | services/exportService.ts:272-275 | with the corrected escaping, every say statement's text reads back and closes at the end of the line |
| RenpyProperties.CorrectedMenuItemReadsBack | services/exportService.ts:283-284 | with the corrected escaping, every menu item's text reads back and closes before the colon |
| RenpyProperties.CorrectedDefineReadsBack | services/exportService.ts:218-219 | with the corrected escaping, every definition's name reads back |
| RenpyReferences.OnlySubset | services/exportService.ts:190-295 | a statement picked by kind is in the script and has that kind |
| RenpyReferences.OnlyComplete | services/exportService.ts:190-295 | every statement of a kind is picked when filtering by that kind |
| RenpyReferences.BackgroundImagesComplete | services/exportService.ts:207-211 | every scene's background has its image |
| RenpyReferences.DefinitionsComplete | services/exportService.ts:216-220 | every character has its definition |
| RenpyReferences.StageShowsBacked | services/exportService.ts:241-251 | every staged portrait is of a character and expression of the novel |
| RenpyReferences.LineBacked | services/exportService.ts:256-276 | every shown portrait and every speaker of a line is of the novel |
| RenpyReferences.DialogueBacked | services/exportService.ts:256-277 | every portrait a dialogue shows and every speaker it names belongs to the novel |
| RenpyReferences.ClosingBacked | services/exportService.ts:279-290 | a scene's closing (menu or `return`) shows no portrait or background and names no speaker, so it needs no declaration |
| RenpyReferences.SceneBlockBacked | services/exportService.ts:228-292 | every portrait, background and speaker a scene block uses belongs to the novel |
| RenpyReferences.SceneBlocksBacked | services/exportService.ts:228-292 | every portrait, background and speaker the scene blocks use belongs to the novel |
| RenpyReferences.FrontAndEntryBacked | services/exportService.ts:192-226 | the header, images, definitions and entry use no portrait, background or speaker outside the novel |
| RenpyReferences.BackedIsDeclared | services/exportService.ts:190-295 | a portrait, background or speaker that belongs to the novel has its `image` or `define` in the script |
| RenpyReferences.ReferencesDeclared | services/exportService.ts:190-295 | every portrait shown has its `image`, every background its `image` and every speaker its `define` |
| RenpyReferences.SceneBlocksJumps | services/exportService.ts:281-286 | the scene blocks' jumps are every choice's jump, scene by scene |
| RenpyReferences.JumpsFollowChoices | services/exportService.ts:225-286 | the jumps are the entry's jump to the start, then every choice's jump in order |
| RenpyReferences.ChoiceJumpsSound | services/exportService.ts:281-286 | every menu jump comes from a choice of the scene |
| RenpyReferences.AllChoiceJumpsSound | services/exportService.ts:281-286 | every menu jump comes from a choice of some scene |
| RenpyReferences.ChoiceJumpsComplete | services/exportService.ts:281-286 | every choice of a scene has its jump |
| RenpyReferences.AllChoiceJumpsComplete | services/exportService.ts:281-286 | every choice of every scene has its jump |
| RenpyReferences.LabelOfScene | services/exportService.ts:228-230 | every scene id has its label in the script |
| RenpyReferences.LabelsAreScenes | services/exportService.ts:225-230 | every label is `start` or the tag of a scene's id |
| RenpyReferences.DanglingJumpHasNoLabel | services/exportService.ts:282-285 | a choice whose target is no scene's tag still gets its jump, and the script has no label for it |
| RenpyReferences.JumpsLandOnLabels | services/exportService.ts:225-286 | when the start and every choice target exist, every jump lands on a label |
| HtmlExport.EscapeLt | services/exportService.ts:298 | the embedded snapshot contains no `<` |
| HtmlExport.EscapeLtRoundTrip | services/exportService.ts:298 | read as JSON, the escaped text is the serializer's text |
| HtmlExport.EscapeLtKeepsPlainText | services/exportService.ts:298 | a text without `<` is embedded unchanged |
| HtmlExport.TitleBackgroundMatchesPlayer | services/exportService.ts:301-302 | the exported title background is the preview's |
| HtmlExport.TitleBackgroundStyle | services/exportService.ts:305 | a background image iff the URL is non-empty, and then that URL; black otherwise |
| HtmlExport.ExportToHtml | services/exportService.ts:297-327 | the page title is the novel's; the data is the serializer's text with `<` escaped, so it has no `<`; a description paragraph iff the description is non-empty, holding it; the title style shows the preview's title background |
| HtmlExport.ExportedPageFaithful | services/exportService.ts:297-353 | the page's data reads back as the serializer's text, cannot close its `script` element, and its title screen agrees with the preview's |
| DemoFacts.DemoIsShaped | constants.ts:6-95 | the demo starts at `scene_1`, has a cover, and its five scenes lead `scene_1` to `scene_2`/`scene_4` and `scene_2` to `scene_3a`/`scene_3b` |
| DemoFacts.DemoIdsDistinct | constants.ts:36-92 | the demo's scene ids are pairwise distinct |
| DemoFacts.DemoEdgesFromStart | constants.ts:37-44 | `scene_1` leads to `scene_2` and `scene_4` |
| DemoFacts.DemoEdgesFromSecond | constants.ts:49-60 | `scene_2` leads to `scene_3a` and `scene_3b` |
| DemoFacts.DemoReachesFirst | constants.ts:37-44 | `scene_1`, `scene_2` and `scene_4` are reached from the start |
| DemoFacts.DemoReachesSecond | constants.ts:49-60 | `scene_3a` and `scene_3b` are reached from the start |
| DemoFacts.DemoSceneIds | constants.ts:36-92 | every demo scene carries one of the five ids |
| DemoFacts.DemoAllReachable | constants.ts:6-95 | every scene of the demo is reachable from its start |
| DemoFacts.DemoOrphans | constants.ts:6-95 | the demo has no orphan scenes |
| DemoFacts.DemoEndings | constants.ts:64-92 | the demo's endings are exactly `scene_3a`, `scene_3b` and `scene_4` |
| DemoFacts.DemoEndingCount | constants.ts:64-92 | the demo has three endings |
| DemoFacts.DemoLabels | constants.ts:6-95 | the demo's Ren'Py script has six labels |
| DemoFacts.DemoReturns | constants.ts:6-95 | the demo's Ren'Py script has three `return`s |
| DemoFacts.DemoTitleScreen | constants.ts:9 | the demo's exported title screen shows its cover |
| DemoFacts.EmptyTemplateScript | constants.ts:97-114 | the empty template's script has two labels and one `return` |
| DemoFacts.EmptyTemplateOrphans | constants.ts:97-114 | the empty template has no orphans |
| DemoFacts.EmptyTitleScreen | constants.ts:100 | the empty template's title screen is black |

## Left out

- React state and effects (`useState`, `useEffect`, `useMemo`), the JSON deep copy in `updateVn`, loading from `localStorage` and `setVisualNovel`: the model works on novel values, so a copy is implicit and storage is outside the core.
- `updateCharacter`: it applies whatever function the caller passes. Every concrete edit it is used for is one of the modelled transformations.
- DOM drawing, CSS and markup: `WEB_GAME_STYLES`, the HTML template body, and the player's JSX and class names. The model keeps what they show: the frame, the banner, the control, the title, the description and the title style.
- `JSON.stringify` is a parameter of `HtmlExport.ExportToHtml`. `HtmlExport.Stringified` states the shape of its output that the escape round trip relies on.
- HTML escaping: the title and description go into the page unescaped. Markup in them is not modelled.
- Sprite positions are real numbers. JavaScript floating point and the `%` CSS string are not modelled.
- The `App.tsx` effect that sets an empty current scene id to the start scene runs after every render. The model applies it inside `Playback.PreviewPlayer.Choose`, the only preview step that can empty the scene id during play.
- `alert` in the exported player is the `Alert` result of `WebRuntime.WebRender`. The message text is not modelled.
- Ren'Py's reading of string literals is modelled only for backslash escapes and the closing quote. Text interpolation with `[` and `{` is not modelled.
- RenpyText.RenpyId: a character outside the Basic Multilingual Plane is one Dafny character and becomes one `_`. The source replaces per UTF-16 code unit and writes two.
- Editing.UpdateChoice: for an index outside the choice list, the source writes a partial choice object at that index, and a negative index becomes a stray property. The model leaves the scene unchanged.
- The demo facts are proved for every novel with the demo's skeleton (`DemoFacts.DemoShaped`: its ids, start, cover and choice targets). `DemoFacts.DemoIsShaped` shows that the demo has that skeleton. This keeps the long Korean texts out of the proofs.
- The AI story and image generation service, the AI orchestration hook, file import and export, image processing and the editor's UI components are not part of this model. They are network calls, file and canvas I/O, and markup.

## Findings

| source | as written | input that shows it | evidently intended | confidence | as-written member | corrected member |
|---|---|---|---|---|---|---|
| services/exportService.ts:267 | say and menu text escape only `"` as `\"`; a backslash is copied unchanged | a narrator line `C:\` becomes `"C:\"`, where the backslash escapes the closing quote and the literal never closes (`RenpyText.TrailingBackslashBreaksLiteral`) | double each backslash before escaping the quote, so every text reads back exactly (`RenpyText.EscapeRoundTrip`, `RenpyProperties.CorrectedSayReadsBack`) | not executed | RenpyText.EscapeQuoteOnly | RenpyText.Escape |
| services/exportService.ts:218 | a character name escapes only `'` as `\'`; a backslash is copied unchanged | the name `C:\` gives `Character('C:\')`, whose literal never closes; the same reading as the row above with `'` as the quote | double each backslash, so the name reads back exactly (`RenpyProperties.CorrectedDefineReadsBack`) | not executed | RenpyText.EscapeQuoteOnly | RenpyText.Escape |

The script model (`RenpyExport.Render`) escapes as the source does, so `RenpyExport.ExportToRenpy` is the source's script for every novel. `RenpyExport.CorrectedRender` is the same rendering with the corrected escape, and the `Corrected…ReadsBack` lemmas prove that it reads back for every text. `RenpyExport.Render` equals it on every line that quotes no backslash.

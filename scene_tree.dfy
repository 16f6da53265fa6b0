/**
 * The scene graph as the `SceneTree` panel sees it: a breadth-first reachability pass that
 * yields the scenes no path from the start reaches (orphans), and the depth-first tree of
 * `SceneNode`, which turns a scene already on the ancestor path into a repeat leaf.
 */
module SceneTree {
  import opened Wrappers
  import opened Model
  import opened Seqs

  // ---------------------------------------------------------------------------
  // The id map and the graph it induces

  /** `new Map(vn.scenes.map(s => [s.id, s]))`: a later scene overwrites an earlier one with the same id. */
  function SceneMap(scenes: seq<Scene>): (m: map<string, Scene>)
    ensures forall s :: s in scenes ==> s.id in m
    ensures forall id :: id in m ==> m[id] in scenes && m[id].id == id
  {
    if scenes == [] then map[]
    else
      var init := scenes[..|scenes| - 1];
      var last := scenes[|scenes| - 1];
      assert scenes == init + [last];
      SceneMap(init)[last.id := last]
  }

  /** The map holds, for each id, the LAST scene carrying it. */
  lemma {:induction false} SceneMapLastWins(scenes: seq<Scene>, k: nat)
    requires k < |scenes|
    requires forall j :: k < j < |scenes| ==> scenes[j].id != scenes[k].id
    ensures scenes[k].id in SceneMap(scenes) && SceneMap(scenes)[scenes[k].id] == scenes[k]
  {
    var init := scenes[..|scenes| - 1];
    if k < |scenes| - 1 {
      assert init[k] == scenes[k];
      SceneMapLastWins(init, k);
    }
  }

  /** When no two scenes share an id, the map and `find` agree. */
  lemma SceneMapAgreesWithFind(scenes: seq<Scene>, id: string)
    requires forall i, j :: 0 <= i < j < |scenes| ==> scenes[i].id != scenes[j].id
    ensures id in SceneMap(scenes) <==> FindScene(scenes, id).Some?
    ensures id in SceneMap(scenes) ==> SceneMap(scenes)[id] == FindScene(scenes, id).value
  {
    if FindScene(scenes, id).Some? {
      var k := SceneIndex(scenes, id).value;
      SceneMapLastWins(scenes, k);
    }
  }

  /** The non-empty targets of `cs`. */
  function NonEmptyTargets(cs: seq<Choice>): set<string>
  {
    if cs == [] then {}
    else
      var init := cs[..|cs| - 1];
      var last := cs[|cs| - 1];
      assert cs == init + [last];
      NonEmptyTargets(init) + if last.nextSceneId != "" then {last.nextSceneId} else {}
  }

  /** Each choice with a non-empty target contributes it. */
  lemma {:induction false} NonEmptyTargetsHold(cs: seq<Choice>, c: Choice)
    requires c in cs && c.nextSceneId != ""
    ensures c.nextSceneId in NonEmptyTargets(cs)
  {
    var init := cs[..|cs| - 1];
    assert cs == init + [cs[|cs| - 1]];
    if c != cs[|cs| - 1] {
      NonEmptyTargetsHold(init, c);
    }
  }

  /** Each non-empty target comes from some choice. */
  lemma {:induction false} NonEmptyTargetsCome(cs: seq<Choice>, x: string)
    requires x in NonEmptyTargets(cs)
    ensures x != "" && exists c :: c in cs && c.nextSceneId == x
  {
    var init := cs[..|cs| - 1];
    var last := cs[|cs| - 1];
    assert cs == init + [last];
    if x in NonEmptyTargets(init) {
      NonEmptyTargetsCome(init, x);
      var c :| c in init && c.nextSceneId == x;
      assert c in cs;
    }
  }

  /** The non-empty choice targets of the scene the map holds for `id` (none when `id` is not a key). */
  function Successors(m: map<string, Scene>, id: string): set<string>
  {
    if id in m then NonEmptyTargets(m[id].choices) else {}
  }

  /** Every choice target of every scene, dangling or not. */
  function AllTargets(scenes: seq<Scene>): set<string>
  {
    set s, c | s in scenes && c in s.choices :: c.nextSceneId
  }

  /** A walk along choice edges: every id but the last names a scene and leads to the next. */
  ghost predicate IsPath(m: map<string, Scene>, p: seq<string>)
  {
    |p| >= 1 && forall i :: 0 <= i < |p| - 1 ==> p[i + 1] in Successors(m, p[i])
  }

  /** `x` is reached from a non-empty start that names a scene. */
  ghost predicate Reachable(m: map<string, Scene>, start: string, x: string)
  {
    start != "" && start in m && exists p :: IsPath(m, p) && p[0] == start && p[|p| - 1] == x
  }

  /** A set holding `p[0]` and closed under the edges out of its ids holds the whole walk. */
  lemma {:induction false} ClosedSetHoldsPath(m: map<string, Scene>, r: set<string>, p: seq<string>)
    requires IsPath(m, p) && p[0] in r
    requires forall x :: x in r ==> Successors(m, x) <= r
    ensures p[|p| - 1] in r
  {
    if |p| > 1 {
      assert p[1] in Successors(m, p[0]);
      assert IsPath(m, p[1..]) by {
        forall i | 0 <= i < |p[1..]| - 1 ensures p[1..][i + 1] in Successors(m, p[1..][i]) {
          assert p[1..][i] == p[i + 1] && p[1..][i + 1] == p[i + 2];
        }
      }
      ClosedSetHoldsPath(m, r, p[1..]);
    }
  }

  /** A start that names a scene is reached by the walk of that scene alone. */
  lemma ReachStart(m: map<string, Scene>, start: string)
    requires start != "" && start in m
    ensures Reachable(m, start, start)
  {
    assert IsPath(m, [start]);
  }

  /** One more edge out of a reached scene reaches its target. */
  lemma ReachStep(m: map<string, Scene>, start: string, cur: string, next: string)
    requires Reachable(m, start, cur)
    requires next in Successors(m, cur)
    ensures Reachable(m, start, next)
  {
    var p :| IsPath(m, p) && p[0] == start && p[|p| - 1] == cur;
    var q := p + [next];
    forall i | 0 <= i < |q| - 1 ensures q[i + 1] in Successors(m, q[i]) {
      if i < |p| - 1 {
        assert q[i] == p[i] && q[i + 1] == p[i + 1];
      }
    }
    assert IsPath(m, q) && q[0] == start && q[|q| - 1] == next;
  }

  /** Every marked id is reachable. */
  ghost predicate AllReachable(m: map<string, Scene>, start: string, reachable: set<string>)
  {
    forall x :: x in reachable ==> Reachable(m, start, x)
  }

  /** The queue holds exactly the marked ids, once each. */
  ghost predicate QueueMatches(queue: seq<string>, reachable: set<string>)
  {
    |queue| == |reachable| && forall x :: x in reachable <==> x in queue
  }

  /** Every edge leads to some choice target. */
  lemma SuccessorsAreTargets(scenes: seq<Scene>, id: string)
    ensures Successors(SceneMap(scenes), id) <= AllTargets(scenes)
  {
    var m := SceneMap(scenes);
    if id in m {
      forall x | x in Successors(m, id) ensures x in AllTargets(scenes) {
        NonEmptyTargetsCome(m[id].choices, x);
        var c :| c in m[id].choices && c.nextSceneId == x;
        assert m[id] in scenes;
      }
    }
  }

  // ---------------------------------------------------------------------------
  // Breadth-first reachability (the `useMemo` of `SceneTree`)

  /**
   * The `scene.choices.forEach` step of the pass: marks and enqueues, in choice order, each
   * non-empty target not yet marked.
   */
  method EnqueueTargets(ghost start: string, m: map<string, Scene>, currentId: string,
                        reachable0: set<string>, queue0: seq<string>)
    returns (reachable: set<string>, queue: seq<string>)
    requires currentId in m
    requires QueueMatches(queue0, reachable0) && Reachable(m, start, currentId)
    requires AllReachable(m, start, reachable0)
    ensures QueueMatches(queue, reachable) && queue0 <= queue
    ensures reachable0 + Successors(m, currentId) == reachable
    ensures AllReachable(m, start, reachable)
  {
    reachable, queue := reachable0, queue0;
    var choices := m[currentId].choices;
    var j := 0;
    while j < |choices|
      invariant 0 <= j <= |choices|
      invariant QueueMatches(queue, reachable) && queue0 <= queue
      invariant reachable0 <= reachable <= reachable0 + Successors(m, currentId)
      invariant forall k :: 0 <= k < j && choices[k].nextSceneId != "" ==> choices[k].nextSceneId in reachable
      invariant AllReachable(m, start, reachable)
    {
      var next := choices[j].nextSceneId;
      if next != "" && next !in reachable {
        NonEmptyTargetsHold(choices, choices[j]);
        ReachStep(m, start, currentId, next);
        reachable := reachable + {next};
        queue := queue + [next];
      }
      j := j + 1;
    }
    forall x | x in Successors(m, currentId) ensures x in reachable {
      NonEmptyTargetsCome(choices, x);
      var c :| c in choices && c.nextSceneId == x;
      var k :| 0 <= k < |choices| && choices[k] == c;
    }
  }

  /**
   * The reachable set: a queue with a `head` index over the map's scenes. An id is marked
   * before it is enqueued, so every id enters the queue once; empty targets are skipped and
   * a dangling target is marked but never expanded.
   */
  method ComputeReachable(scenes: seq<Scene>, start: string) returns (reachable: set<string>)
    ensures forall x :: x in reachable <==> Reachable(SceneMap(scenes), start, x)
    ensures start != "" && start in SceneMap(scenes) ==> start in reachable
    ensures forall x :: x in reachable ==> Successors(SceneMap(scenes), x) <= reachable
  {
    var m := SceneMap(scenes);
    reachable := {};
    if start != "" && start in m {
      ghost var bound := {start} + AllTargets(scenes);
      var queue := [start];
      reachable := {start};
      assert IsPath(m, [start]);
      var head := 0;
      while head < |queue|
        invariant 0 <= head <= |queue| && QueueMatches(queue, reachable)
        invariant start in reachable && reachable <= bound
        invariant AllReachable(m, start, reachable)
        invariant ExpandedPrefix(m, queue, head, reachable)
        decreases |bound| - head
      {
        SubsetCardinality(reachable, bound);
        var currentId := queue[head];
        head := head + 1;
        if currentId in m {
          SuccessorsAreTargets(scenes, currentId);
          ghost var queue0, reachable0 := queue, reachable;
          reachable, queue := EnqueueTargets(start, m, currentId, reachable, queue);
          ExpandedPrefixGrows(m, queue0, queue, head, reachable0, reachable);
        } else {
          assert Successors(m, currentId) == {};
          ExpandedPrefixGrows(m, queue, queue, head, reachable, reachable);
        }
      }
      ExhaustedQueueIsClosed(m, start, queue, reachable);
    }
  }

  /** The ids before position `n` of the queue have had all their edges followed. */
  ghost predicate ExpandedPrefix(m: map<string, Scene>, queue: seq<string>, n: nat, reachable: set<string>)
  {
    n <= |queue| && forall i :: 0 <= i < n ==> Successors(m, queue[i]) <= reachable
  }

  /** Expanding `queue[n - 1]` into a larger marked set extends the expanded prefix by one. */
  lemma ExpandedPrefixGrows(m: map<string, Scene>, queue: seq<string>, queue': seq<string>, n: nat,
                            reachable: set<string>, reachable': set<string>)
    requires 0 < n <= |queue| && ExpandedPrefix(m, queue, n - 1, reachable)
    requires queue <= queue' && reachable <= reachable' && Successors(m, queue[n - 1]) <= reachable'
    ensures ExpandedPrefix(m, queue', n, reachable')
  {
    forall i | 0 <= i < n ensures Successors(m, queue'[i]) <= reachable' {
      assert queue'[i] == queue[i];
    }
  }

  /** Once every queued id has been expanded, the marked set is closed and holds every reachable id. */
  lemma ExhaustedQueueIsClosed(m: map<string, Scene>, start: string, queue: seq<string>, reachable: set<string>)
    requires QueueMatches(queue, reachable) && start in reachable
    requires ExpandedPrefix(m, queue, |queue|, reachable)
    ensures forall y :: y in reachable ==> Successors(m, y) <= reachable
    ensures forall x :: Reachable(m, start, x) ==> x in reachable
  {
    forall y | y in reachable ensures Successors(m, y) <= reachable {
      var i :| 0 <= i < |queue| && queue[i] == y;
    }
    forall x | Reachable(m, start, x) ensures x in reachable {
      var p :| IsPath(m, p) && p[0] == start && p[|p| - 1] == x;
      ClosedSetHoldsPath(m, reachable, p);
    }
  }

  /**
   * The orphan list: the scenes whose id the breadth-first pass did not reach, in scene
   * order. With an empty or unknown start id nothing is reached and every scene is an orphan.
   */
  /** The ids of the scenes a walk from the start reaches. */
  ghost function ReachedSceneIds(vn: Novel): set<string>
  {
    set s | s in vn.scenes && Reachable(SceneMap(vn.scenes), vn.startSceneId, s.id) :: s.id
  }

  method Orphans(vn: Novel) returns (orphans: seq<Scene>)
    ensures orphans == KeepUnless(vn.scenes, SceneId, ReachedSceneIds(vn))
    ensures forall s :: s in orphans <==> s in vn.scenes && !Reachable(SceneMap(vn.scenes), vn.startSceneId, s.id)
    ensures |orphans| <= |vn.scenes|
    ensures vn.startSceneId == "" || vn.startSceneId !in SceneMap(vn.scenes) ==> orphans == vn.scenes
    ensures vn.startSceneId != "" ==> forall s :: s in vn.scenes && s.id == vn.startSceneId ==> s !in orphans
  {
    assert IsPath(SceneMap(vn.scenes), [vn.startSceneId]);
    var reachable := ComputeReachable(vn.scenes, vn.startSceneId);
    orphans := KeepUnless(vn.scenes, SceneId, reachable);
    KeepUnlessAgrees(vn.scenes, SceneId, reachable, ReachedSceneIds(vn));
  }

  // ---------------------------------------------------------------------------
  // The presentation tree (`SceneNode`)

  /** A rendered node: a repeat leaf, or a scene with its labelled child subtrees. */
  datatype TreeNode =
    | Repeat(sceneId: string, name: string)
    | Node(sceneId: string, name: string, isStart: bool, children: seq<Branch>)

  /** A child subtree under the text of the choice that leads to it. */
  datatype Branch = Branch(choiceText: string, node: TreeNode)

  /**
   * `SceneNode` for `scene` under the ancestor ids `ancestors`. The component adds the
   * scene's id to its own set and hands each child a copy, so a child sees exactly the ids
   * on its path from the root.
   */
  function Expand(vn: Novel, scene: Scene, ancestors: set<string>): (t: TreeNode)
    requires scene in vn.scenes
    ensures t.sceneId == scene.id && t.name == scene.name
    ensures t.Repeat? <==> scene.id in ancestors
    decreases |SceneIds(vn) - ancestors|, 1
  {
    if scene.id in ancestors then Repeat(scene.id, scene.name)
    else Node(scene.id, scene.name, scene.id == vn.startSceneId, ExpandChildren(vn, scene.id, scene.choices, ancestors))
  }

  /**
   * The children of the scene `parentId` (not among `ancestors`): each choice whose target
   * `find` resolves, in choice order, expanded under `ancestors + {parentId}`.
   */
  function ExpandChildren(vn: Novel, parentId: string, choices: seq<Choice>, ancestors: set<string>): (bs: seq<Branch>)
    requires parentId in SceneIds(vn) && parentId !in ancestors
    ensures |bs| <= |choices|
    decreases |SceneIds(vn) - ancestors|, 0, |choices|
  {
    if choices == [] then []
    else
      var rest := ExpandChildren(vn, parentId, choices[1..], ancestors);
      match FindScene(vn.scenes, choices[0].nextSceneId)
      case None => rest
      case Some(child) =>
        FewerUnvisited(SceneIds(vn), ancestors, parentId);
        [Branch(choices[0].text, Expand(vn, child, ancestors + {parentId}))] + rest
  }

  /** Visiting a new id leaves fewer ids unvisited: the measure of the expansion. */
  lemma FewerUnvisited(ids: set<string>, ancestors: set<string>, id: string)
    requires id in ids && id !in ancestors
    ensures |ids - (ancestors + {id})| < |ids - ancestors|
  {
    assert ids - (ancestors + {id}) == (ids - ancestors) - {id};
  }

  /** What the panel shows at the top: the map's scene for the start id, or an error when there is none. */
  function BuildSceneTree(vn: Novel): (t: Option<TreeNode>)
    ensures t.None? <==> forall s :: s in vn.scenes ==> s.id != vn.startSceneId
    ensures t.Some? ==> t.value.Node? && t.value.sceneId == vn.startSceneId && t.value.isStart
  {
    var m := SceneMap(vn.scenes);
    if vn.startSceneId in m then Some(Expand(vn, m[vn.startSceneId], {})) else None
  }

  // ---------------------------------------------------------------------------
  // Properties of the tree

  /** The choices whose target `find` resolves, in order. */
  function Resolving(vn: Novel, choices: seq<Choice>): seq<Choice>
  {
    if choices == [] then []
    else if FindScene(vn.scenes, choices[0].nextSceneId).Some? then [choices[0]] + Resolving(vn, choices[1..])
    else Resolving(vn, choices[1..])
  }

  /** Children are the resolving choices, in order, each labelled with its text and rooted at its target. */
  lemma {:induction false} ChildrenFollowChoices(vn: Novel, parentId: string, choices: seq<Choice>, ancestors: set<string>)
    requires parentId in SceneIds(vn) && parentId !in ancestors
    ensures var bs := ExpandChildren(vn, parentId, choices, ancestors);
      var rs := Resolving(vn, choices);
      |bs| == |rs| &&
      forall i :: 0 <= i < |bs| ==> bs[i].choiceText == rs[i].text && bs[i].node.sceneId == rs[i].nextSceneId
  {
    if choices != [] {
      ChildrenFollowChoices(vn, parentId, choices[1..], ancestors);
    }
  }

  /**
   * The cycle cut: a repeat leaf names one of its ancestors, an expanded node names none of
   * them, so the expanded ids along any root-to-leaf path are pairwise distinct.
   */
  ghost predicate CutAtRepeats(t: TreeNode, ancestors: set<string>)
  {
    match t
    case Repeat(id, _) => id in ancestors
    case Node(id, _, _, children) =>
      id !in ancestors && forall b :: b in children ==> CutAtRepeats(b.node, ancestors + {id})
  }

  lemma {:induction false} ExpandCutsAtRepeats(vn: Novel, scene: Scene, ancestors: set<string>)
    requires scene in vn.scenes
    ensures CutAtRepeats(Expand(vn, scene, ancestors), ancestors)
    decreases |SceneIds(vn) - ancestors|, 1
  {
    if scene.id !in ancestors {
      ChildrenCutAtRepeats(vn, scene.id, scene.choices, ancestors);
    }
  }

  lemma {:induction false} ChildrenCutAtRepeats(vn: Novel, parentId: string, choices: seq<Choice>, ancestors: set<string>)
    requires parentId in SceneIds(vn) && parentId !in ancestors
    ensures forall b :: b in ExpandChildren(vn, parentId, choices, ancestors) ==> CutAtRepeats(b.node, ancestors + {parentId})
    decreases |SceneIds(vn) - ancestors|, 0, |choices|
  {
    if choices != [] {
      ChildrenCutAtRepeats(vn, parentId, choices[1..], ancestors);
      match FindScene(vn.scenes, choices[0].nextSceneId)
      case None =>
      case Some(child) =>
        FewerUnvisited(SceneIds(vn), ancestors, parentId);
        ExpandCutsAtRepeats(vn, child, ancestors + {parentId});
    }
  }

  /** Number of nodes on the longest root-to-leaf path. */
  function Depth(t: TreeNode): nat
  {
    match t
    case Repeat(_, _) => 1
    case Node(_, _, _, children) => 1 + DepthOfBranches(children)
  }

  function DepthOfBranches(bs: seq<Branch>): nat
  {
    if bs == [] then 0
    else
      var d := Depth(bs[0].node);
      var e := DepthOfBranches(bs[1..]);
      if d < e then e else d
  }

  /** Each expansion consumes a fresh scene id, so the depth is at most the ids left plus one. */
  lemma {:induction false} ExpandDepth(vn: Novel, scene: Scene, ancestors: set<string>)
    requires scene in vn.scenes
    ensures Depth(Expand(vn, scene, ancestors)) <= |SceneIds(vn) - ancestors| + 1
    decreases |SceneIds(vn) - ancestors|, 1
  {
    if scene.id !in ancestors {
      ChildrenDepth(vn, scene.id, scene.choices, ancestors);
    }
  }

  lemma {:induction false} ChildrenDepth(vn: Novel, parentId: string, choices: seq<Choice>, ancestors: set<string>)
    requires parentId in SceneIds(vn) && parentId !in ancestors
    ensures DepthOfBranches(ExpandChildren(vn, parentId, choices, ancestors)) <= |SceneIds(vn) - ancestors|
    decreases |SceneIds(vn) - ancestors|, 0, |choices|
  {
    if choices != [] {
      ChildrenDepth(vn, parentId, choices[1..], ancestors);
      match FindScene(vn.scenes, choices[0].nextSceneId)
      case None =>
      case Some(child) =>
        FewerUnvisited(SceneIds(vn), ancestors, parentId);
        ExpandDepth(vn, child, ancestors + {parentId});
    }
  }

  /** The whole tree is at most one level deeper than there are distinct scene ids. */
  lemma TreeDepthBound(vn: Novel)
    requires BuildSceneTree(vn).Some?
    ensures Depth(BuildSceneTree(vn).value) <= |SceneIds(vn)| + 1
  {
    var m := SceneMap(vn.scenes);
    ExpandDepth(vn, m[vn.startSceneId], {});
    assert SceneIds(vn) - {} == SceneIds(vn);
  }

  // ---------------------------------------------------------------------------
  // The tree and the orphan list agree when ids are unique

  /** Scene ids are pairwise distinct and non-empty. */
  ghost predicate WellKeyed(vn: Novel)
  {
    (forall i, j :: 0 <= i < j < |vn.scenes| ==> vn.scenes[i].id != vn.scenes[j].id)
    && forall s :: s in vn.scenes ==> s.id != ""
  }

  /** Every expanded node of `t` names a scene the breadth-first pass reaches. */
  ghost predicate NodesReachable(vn: Novel, t: TreeNode)
  {
    match t
    case Repeat(_, _) => true
    case Node(id, _, _, children) => Reachable(SceneMap(vn.scenes), vn.startSceneId, id) && BranchesReachable(vn, children)
  }

  ghost predicate BranchesReachable(vn: Novel, bs: seq<Branch>)
  {
    bs == [] || (NodesReachable(vn, bs[0].node) && BranchesReachable(vn, bs[1..]))
  }

  /** With unique ids the map holds each scene under its own id. */
  lemma MapHoldsScene(vn: Novel, s: Scene)
    requires WellKeyed(vn) && s in vn.scenes
    ensures s.id in SceneMap(vn.scenes) && SceneMap(vn.scenes)[s.id] == s
  {
    var k :| 0 <= k < |vn.scenes| && vn.scenes[k] == s;
    SceneMapLastWins(vn.scenes, k);
  }

  lemma {:induction false} ExpandReachable(vn: Novel, scene: Scene, ancestors: set<string>)
    requires WellKeyed(vn) && scene in vn.scenes && Reachable(SceneMap(vn.scenes), vn.startSceneId, scene.id)
    ensures NodesReachable(vn, Expand(vn, scene, ancestors))
    decreases |SceneIds(vn) - ancestors|, 1
  {
    if scene.id !in ancestors {
      MapHoldsScene(vn, scene);
      var m := SceneMap(vn.scenes);
      forall c | c in scene.choices && c.nextSceneId != "" ensures c.nextSceneId in Successors(m, scene.id) {
        NonEmptyTargetsHold(scene.choices, c);
      }
      ChildrenReachable(vn, scene.id, scene.choices, ancestors);
    }
  }

  lemma {:induction false} ChildrenReachable(vn: Novel, parentId: string, choices: seq<Choice>, ancestors: set<string>)
    requires WellKeyed(vn) && parentId in SceneIds(vn) && parentId !in ancestors
    requires Reachable(SceneMap(vn.scenes), vn.startSceneId, parentId)
    requires EdgesFrom(vn, parentId, choices)
    ensures BranchesReachable(vn, ExpandChildren(vn, parentId, choices, ancestors))
    decreases |SceneIds(vn) - ancestors|, 0, |choices|
  {
    if choices != [] {
      assert EdgesFrom(vn, parentId, choices[1..]) by {
        assert forall c :: c in choices[1..] ==> c in choices;
      }
      ChildrenReachable(vn, parentId, choices[1..], ancestors);
      match FindScene(vn.scenes, choices[0].nextSceneId)
      case None =>
      case Some(child) =>
        assert choices[0] in choices;
        ChildReachable(vn, parentId, choices[0], child);
        FewerUnvisited(SceneIds(vn), ancestors, parentId);
        ExpandReachable(vn, child, ancestors + {parentId});
    }
  }

  /** Every non-empty target among `choices` is an edge out of `parentId`. */
  ghost predicate EdgesFrom(vn: Novel, parentId: string, choices: seq<Choice>)
  {
    forall c :: c in choices && c.nextSceneId != "" ==> c.nextSceneId in Successors(SceneMap(vn.scenes), parentId)
  }

  /** A choice target that resolves to a scene is one more reachable step. */
  lemma ChildReachable(vn: Novel, parentId: string, c: Choice, child: Scene)
    requires WellKeyed(vn) && Reachable(SceneMap(vn.scenes), vn.startSceneId, parentId)
    requires FindScene(vn.scenes, c.nextSceneId) == Some(child)
    requires c.nextSceneId != "" ==> c.nextSceneId in Successors(SceneMap(vn.scenes), parentId)
    ensures Reachable(SceneMap(vn.scenes), vn.startSceneId, child.id)
  {
    assert child.id == c.nextSceneId != "";
    ReachStep(SceneMap(vn.scenes), vn.startSceneId, parentId, child.id);
  }

  /**
   * With unique, non-empty scene ids no scene drawn in the tree is also listed as an orphan:
   * the depth-first tree only expands scenes the breadth-first pass reaches.
   */
  lemma TreeScenesAreReachable(vn: Novel)
    requires WellKeyed(vn) && BuildSceneTree(vn).Some?
    ensures NodesReachable(vn, BuildSceneTree(vn).value)
  {
    var m := SceneMap(vn.scenes);
    assert IsPath(m, [vn.startSceneId]);
    ExpandReachable(vn, m[vn.startSceneId], {});
  }
}

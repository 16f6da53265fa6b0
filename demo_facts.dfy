/**
 * Facts about the two built-in novels. Those about the demo depend only on its skeleton (the
 * scene ids, the start scene, the choice targets and the cover), which `DemoShaped` captures;
 * `DemoIsShaped` shows that `DemoNovel` has it, so they hold for the demo whatever its texts.
 */
module DemoFacts {
  import opened Wrappers
  import opened Seqs
  import opened Model
  import opened Fixtures
  import opened SceneTree
  import opened RenpyExport
  import opened RenpyProperties
  import opened RenpyReferences
  import HtmlExport

  /** `s` has id `id` and its choices lead, in order, to `targets`. */
  predicate Leads(s: Scene, id: string, targets: seq<string>)
  {
    s.id == id && |s.choices| == |targets| && forall j :: 0 <= j < |targets| ==> s.choices[j].nextSceneId == targets[j]
  }

  /**
   * The demo's skeleton: `scene_1` offers `scene_2` and `scene_4`, `scene_2` offers `scene_3a`
   * and `scene_3b`, the other three are endings, and the story starts at `scene_1`.
   */
  predicate DemoShaped(vn: Novel)
  {
    && vn.startSceneId == "scene_1"
    && vn.coverUrl != ""
    && |vn.scenes| == 5
    && Leads(vn.scenes[0], "scene_1", ["scene_2", "scene_4"])
    && Leads(vn.scenes[1], "scene_2", ["scene_3a", "scene_3b"])
    && Leads(vn.scenes[2], "scene_3a", [])
    && Leads(vn.scenes[3], "scene_3b", [])
    && Leads(vn.scenes[4], "scene_4", [])
  }

  lemma DemoIsShaped()
    ensures DemoShaped(DemoNovel())
  {
  }

  /** No two scenes of the demo share an id. */
  lemma DemoIdsDistinct(vn: Novel)
    requires DemoShaped(vn)
    ensures forall i, j :: 0 <= i < j < |vn.scenes| ==> vn.scenes[i].id != vn.scenes[j].id
  {
    var s := vn.scenes;
    assert s[0].id[6] == '1' && s[1].id[6] == '2' && s[2].id[6] == '3' && s[3].id[6] == '3' && s[4].id[6] == '4';
    assert s[2].id[7] == 'a' && s[3].id[7] == 'b';
  }

  /** The choice edges out of `scene_1`, the one scene the map holds under that id. */
  lemma DemoEdgesFromStart(vn: Novel)
    requires DemoShaped(vn)
    ensures var m := SceneMap(vn.scenes);
      "scene_1" in m && "scene_2" in Successors(m, "scene_1") && "scene_4" in Successors(m, "scene_1")
  {
    var first := vn.scenes[0];
    DemoIdsDistinct(vn);
    SceneMapLastWins(vn.scenes, 0);
    NonEmptyTargetsHold(first.choices, first.choices[0]);
    NonEmptyTargetsHold(first.choices, first.choices[1]);
  }

  /** The choice edges out of `scene_2`. */
  lemma DemoEdgesFromSecond(vn: Novel)
    requires DemoShaped(vn)
    ensures var m := SceneMap(vn.scenes);
      "scene_3a" in Successors(m, "scene_2") && "scene_3b" in Successors(m, "scene_2")
  {
    var second := vn.scenes[1];
    DemoIdsDistinct(vn);
    SceneMapLastWins(vn.scenes, 1);
    NonEmptyTargetsHold(second.choices, second.choices[0]);
    NonEmptyTargetsHold(second.choices, second.choices[1]);
  }

  /** The walks from `scene_1` to itself and to the scenes its choices offer. */
  lemma DemoReachesFirst(vn: Novel)
    requires DemoShaped(vn)
    ensures var m := SceneMap(vn.scenes);
      Reachable(m, "scene_1", "scene_1") && Reachable(m, "scene_1", "scene_2") && Reachable(m, "scene_1", "scene_4")
  {
    var m := SceneMap(vn.scenes);
    DemoEdgesFromStart(vn);
    ReachStart(m, "scene_1");
    ReachStep(m, "scene_1", "scene_1", "scene_2");
    ReachStep(m, "scene_1", "scene_1", "scene_4");
  }

  /** The walks on, through `scene_2`, to the two scenes it offers. */
  lemma DemoReachesSecond(vn: Novel)
    requires DemoShaped(vn)
    ensures var m := SceneMap(vn.scenes);
      Reachable(m, "scene_1", "scene_3a") && Reachable(m, "scene_1", "scene_3b")
  {
    var m := SceneMap(vn.scenes);
    DemoReachesFirst(vn);
    DemoEdgesFromSecond(vn);
    ReachStep(m, "scene_1", "scene_2", "scene_3a");
    ReachStep(m, "scene_1", "scene_2", "scene_3b");
  }

  /** Every scene of the demo carries one of its five ids. */
  lemma DemoSceneIds(vn: Novel)
    requires DemoShaped(vn)
    ensures forall s :: s in vn.scenes ==> s.id in {"scene_1", "scene_2", "scene_3a", "scene_3b", "scene_4"}
  {
    forall s | s in vn.scenes
      ensures s.id in {"scene_1", "scene_2", "scene_3a", "scene_3b", "scene_4"}
    {
      var i :| 0 <= i < 5 && vn.scenes[i] == s;
      assert i == 0 || i == 1 || i == 2 || i == 3 || i == 4;
    }
  }

  /** Scenes whose ids are all reached are all reached. */
  lemma ReachedByIds(m: map<string, Scene>, start: string, scenes: seq<Scene>, a: string, b: string, c: string, d: string, e: string)
    requires Reachable(m, start, a) && Reachable(m, start, b) && Reachable(m, start, c)
    requires Reachable(m, start, d) && Reachable(m, start, e)
    requires forall s :: s in scenes ==> s.id in {a, b, c, d, e}
    ensures forall s :: s in scenes ==> Reachable(m, start, s.id)
  {
  }

  /** From the start scene every scene of the demo is reached. */
  lemma DemoAllReachable(vn: Novel)
    requires DemoShaped(vn)
    ensures forall s :: s in vn.scenes ==> Reachable(SceneMap(vn.scenes), vn.startSceneId, s.id)
  {
    DemoReachesFirst(vn);
    DemoReachesSecond(vn);
    DemoSceneIds(vn);
    ReachedByIds(SceneMap(vn.scenes), vn.startSceneId, vn.scenes, "scene_1", "scene_2", "scene_3a", "scene_3b", "scene_4");
  }

  /** The demo has no orphan scenes. */
  method DemoOrphans(vn: Novel) returns (orphans: seq<Scene>)
    requires DemoShaped(vn)
    ensures orphans == []
  {
    orphans := Orphans(vn);
    DemoAllReachable(vn);
    NoneUnreached(orphans, vn.scenes, SceneMap(vn.scenes), vn.startSceneId);
  }

  /** When every scene is reached, no scene is an orphan. */
  lemma NoneUnreached(orphans: seq<Scene>, scenes: seq<Scene>, m: map<string, Scene>, start: string)
    requires forall s :: s in orphans <==> s in scenes && !Reachable(m, start, s.id)
    requires forall s :: s in scenes ==> Reachable(m, start, s.id)
    ensures orphans == []
  {
    assert forall s :: s !in orphans;
    EmptyIffNoMember(orphans);
  }

  /** The demo's endings are `scene_3a`, `scene_3b` and `scene_4`. */
  lemma DemoEndings(vn: Novel)
    requires DemoShaped(vn)
    ensures forall s :: s in vn.scenes ==> (IsEnding(s) <==> s.id in {"scene_3a", "scene_3b", "scene_4"})
  {
  }

  lemma DemoEndingCount(vn: Novel)
    requires DemoShaped(vn)
    ensures EndingCount(vn.scenes) == 3
  {
    var s := vn.scenes;
    assert EndingCount(s[..1]) == 0 by {
      assert s[..1][..0] == [];
    }
    assert EndingCount(s[..2]) == 0 by {
      assert s[..2][..1] == s[..1];
    }
    assert EndingCount(s[..3]) == 1 by {
      assert s[..3][..2] == s[..2];
    }
    assert EndingCount(s[..4]) == 2 by {
      assert s[..4][..3] == s[..3];
    }
    assert s[..|s| - 1] == s[..4];
  }

  /** The demo's Ren'Py script has six labels: `start` and one per scene. */
  lemma DemoLabels(vn: Novel)
    requires DemoShaped(vn)
    ensures |Only(RenpyStatements(vn), LabelKind)| == 6
  {
    LabelCount(vn);
  }

  /** The demo's Ren'Py script has three `return`s, one per ending. */
  lemma DemoReturns(vn: Novel)
    requires DemoShaped(vn)
    ensures |Only(RenpyStatements(vn), ReturnKind)| == 3
  {
    ReturnsCountEndings(vn);
    DemoEndingCount(vn);
  }

  /** The demo's exported title screen shows its cover. */
  lemma DemoTitleScreen(vn: Novel, json: string)
    requires DemoShaped(vn)
    ensures HtmlExport.ExportToHtml(vn, json).titleStyle == HtmlExport.BackgroundImage(vn.coverUrl)
  {
  }

  // ---------------------------------------------------------------------------
  // The empty template

  /** The empty template's script has two labels, `start` and its one scene's, and one `return`. */
  lemma EmptyTemplateScript()
    ensures |Only(RenpyStatements(EmptyNovel()), LabelKind)| == 2
    ensures |Only(RenpyStatements(EmptyNovel()), ReturnKind)| == 1
  {
    LabelCount(EmptyNovel());
    ReturnsCountEndings(EmptyNovel());
    assert EmptyNovel().scenes[..0] == [];
  }

  /** The empty template's one scene is its start, so it has no orphans. */
  method EmptyTemplateOrphans() returns (orphans: seq<Scene>)
    ensures orphans == []
  {
    orphans := Orphans(EmptyNovel());
    assert forall s :: s !in orphans;
    EmptyIffNoMember(orphans);
  }

  /** The empty template has no cover and its start scene no background: its title screen is black. */
  lemma EmptyTitleScreen(json: string)
    ensures HtmlExport.ExportToHtml(EmptyNovel(), json).titleStyle == HtmlExport.BlackBackground
  {
  }
}

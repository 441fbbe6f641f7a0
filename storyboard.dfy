/**
 * The pure steps of storyboard generation: building the placeholder
 * storyboard from the extracted scenes, turning each scene's image outcome
 * into an `imageUrl`, and merging the settled results back into the
 * storyboard by scene number, first match only.
 */
module Storyboard {
  import opened Types

  /** The prefix the image service puts before the base64 bytes it returns. */
  const DataUriPrefix: string := "data:image/jpeg;base64,"

  /** The outcome of one image-generation request. */
  datatype ImageResult = Generated(imageBytes: string) | GenerationFailed

  /** What the image step reports for one scene once its request settled. */
  datatype SettledImage = SettledImage(scene: Scene, imageUrl: ImageUrl)

  /** The item shown for a scene whose image has not arrived yet. */
  function Placeholder(scene: Scene): StoryboardItem
  {
    StoryboardItem(scene, NoImage, true)
  }

  /** The item that replaces a placeholder once its image settled. */
  function Settled(s: SettledImage): StoryboardItem
  {
    StoryboardItem(s.scene, s.imageUrl, false)
  }

  /** One placeholder per extracted scene, in the order the scenes came. */
  function InitialStoryboard(scenes: seq<Scene>): (items: seq<StoryboardItem>)
    ensures |items| == |scenes|
    ensures forall i :: 0 <= i < |scenes| ==>
      items[i].scene == scenes[i] && items[i].imageUrl == NoImage && items[i].isLoading
  {
    seq(|scenes|, i requires 0 <= i < |scenes| => Placeholder(scenes[i]))
  }

  /**
   * The `imageUrl` a scene gets from its own image request: a data URI on
   * success, the sentinel on failure. A data URI is never empty and never
   * reads as the sentinel string.
   */
  function ImageUrlFor(outcome: ImageResult): (u: ImageUrl)
    ensures u == ErrorSentinel <==> outcome.GenerationFailed?
    ensures outcome.Generated? ==> u == Url(DataUriPrefix + outcome.imageBytes)
    ensures u != NoImage
    ensures u.Url? ==> u.href != "" && u.href != ErrorSentinelText
  {
    match outcome
    case Generated(bytes) => Url(DataUriPrefix + bytes)
    case GenerationFailed => ErrorSentinel
  }

  /**
   * The settled result of every scene's image request, in scene order;
   * `outcomes(i)` is what the request for the i-th scene returned.
   */
  function Settle(scenes: seq<Scene>, outcomes: nat -> ImageResult): (settled: seq<SettledImage>)
    ensures |settled| == |scenes|
    ensures forall i :: 0 <= i < |scenes| ==>
      settled[i].scene == scenes[i] && settled[i].imageUrl == ImageUrlFor(outcomes(i))
  {
    seq(|scenes|, i requires 0 <= i < |scenes| => SettledImage(scenes[i], ImageUrlFor(outcomes(i))))
  }

  /** `findIndex` on the scene number: the first matching index, or -1. */
  function FindIndex(items: seq<StoryboardItem>, sceneNumber: int): (index: int)
    ensures -1 <= index < |items|
    ensures index >= 0 ==> items[index].scene.sceneNumber == sceneNumber
    ensures index >= 0 ==> forall j :: 0 <= j < index ==> items[j].scene.sceneNumber != sceneNumber
    ensures index == -1 <==> forall j :: 0 <= j < |items| ==> items[j].scene.sceneNumber != sceneNumber
  {
    if items == [] then -1
    else if items[0].scene.sceneNumber == sceneNumber then 0
    else
      var rest := FindIndex(items[1..], sceneNumber);
      if rest == -1 then -1 else rest + 1
  }

  /** The index of the last settled result for a scene number, or -1. */
  function LastSettledIndex(settled: seq<SettledImage>, sceneNumber: int): (index: int)
    ensures -1 <= index < |settled|
    ensures index >= 0 ==> settled[index].scene.sceneNumber == sceneNumber
    ensures index >= 0 ==> forall k :: index < k < |settled| ==> settled[k].scene.sceneNumber != sceneNumber
    ensures index == -1 <==> forall k :: 0 <= k < |settled| ==> settled[k].scene.sceneNumber != sceneNumber
    decreases |settled|
  {
    if settled == [] then -1
    else if settled[|settled| - 1].scene.sceneNumber == sceneNumber then |settled| - 1
    else LastSettledIndex(settled[..|settled| - 1], sceneNumber)
  }

  /** Two storyboards hold the same scene numbers at the same positions. */
  predicate SameSceneNumbers(a: seq<StoryboardItem>, b: seq<StoryboardItem>)
  {
    |a| == |b| && forall i :: 0 <= i < |a| ==> a[i].scene.sceneNumber == b[i].scene.sceneNumber
  }

  /**
   * One step of the `forEach`: the first item with the result's scene
   * number becomes the settled item; nothing else changes.
   */
  function MergeOne(items: seq<StoryboardItem>, s: SettledImage): (merged: seq<StoryboardItem>)
    ensures SameSceneNumbers(items, merged)
    ensures FindIndex(items, s.scene.sceneNumber) >= 0 ==>
      merged[FindIndex(items, s.scene.sceneNumber)] == Settled(s)
    ensures forall i :: 0 <= i < |items| && i != FindIndex(items, s.scene.sceneNumber) ==> merged[i] == items[i]
  {
    var index := FindIndex(items, s.scene.sceneNumber);
    if index == -1 then items else items[index := Settled(s)]
  }

  /**
   * The storyboard after every settled result has been merged in, in the
   * order of `settled`. Length and the scene number at every position are
   * kept, so the list's order of scenes is kept.
   */
  function Merge(items: seq<StoryboardItem>, settled: seq<SettledImage>): (merged: seq<StoryboardItem>)
    ensures SameSceneNumbers(items, merged)
    decreases |settled|
  {
    if settled == [] then items
    else MergeOne(Merge(items, settled[..|settled| - 1]), settled[|settled| - 1])
  }

  /** The merge as the source runs it: copy the list, then patch it in place. */
  method MergeSettled(current: seq<StoryboardItem>, settled: seq<SettledImage>) returns (updated: seq<StoryboardItem>)
    ensures updated == Merge(current, settled)
  {
    var board := new StoryboardItem[|current|](i requires 0 <= i < |current| => current[i]);
    var k := 0;
    while k < |settled|
      invariant 0 <= k <= |settled|
      invariant board[..] == Merge(current, settled[..k])
    {
      assert settled[..k + 1][..k] == settled[..k];
      assert Merge(current, settled[..k + 1]) == MergeOne(board[..], settled[k]);
      var index := FindIndex(board[..], settled[k].scene.sceneNumber);
      if index != -1 {
        board[index] := StoryboardItem(settled[k].scene, settled[k].imageUrl, false);
      }
      k := k + 1;
    }
    assert settled[..k] == settled;
    updated := board[..];
  }

  lemma {:induction false} FindIndexSameSceneNumbers(a: seq<StoryboardItem>, b: seq<StoryboardItem>, sceneNumber: int)
    requires SameSceneNumbers(a, b)
    ensures FindIndex(a, sceneNumber) == FindIndex(b, sceneNumber)
  {
    if a != [] && a[0].scene.sceneNumber != sceneNumber {
      FindIndexSameSceneNumbers(a[1..], b[1..], sceneNumber);
    }
  }

  lemma FindIndexIs(items: seq<StoryboardItem>, sceneNumber: int, i: int)
    requires 0 <= i < |items| && items[i].scene.sceneNumber == sceneNumber
    requires forall j :: 0 <= j < i ==> items[j].scene.sceneNumber != sceneNumber
    ensures FindIndex(items, sceneNumber) == i
  {
  }

  lemma LastSettledIndexIs(settled: seq<SettledImage>, sceneNumber: int, k: int)
    requires 0 <= k < |settled| && settled[k].scene.sceneNumber == sceneNumber
    requires forall m :: k < m < |settled| ==> settled[m].scene.sceneNumber != sceneNumber
    ensures LastSettledIndex(settled, sceneNumber) == k
  {
  }

  /**
   * What the merge leaves at position i: the settled item of the LAST
   * result carrying that position's scene number, if the position is the
   * first with that number and such a result exists; the old item otherwise.
   */
  lemma {:induction false} MergeAt(items: seq<StoryboardItem>, settled: seq<SettledImage>, i: int)
    requires 0 <= i < |items|
    ensures var n := items[i].scene.sceneNumber;
            var last := LastSettledIndex(settled, n);
            Merge(items, settled)[i] ==
              if FindIndex(items, n) == i && last >= 0 then Settled(settled[last]) else items[i]
    decreases |settled|
  {
    if settled != [] {
      var pre, s := settled[..|settled| - 1], settled[|settled| - 1];
      var n := items[i].scene.sceneNumber;
      MergeAt(items, pre, i);
      FindIndexSameSceneNumbers(items, Merge(items, pre), s.scene.sceneNumber);
      if s.scene.sceneNumber == n {
        assert LastSettledIndex(settled, n) == |settled| - 1;
      } else {
        assert LastSettledIndex(settled, n) == LastSettledIndex(pre, n);
      }
    }
  }

  /** An item that no settled result names keeps its value. */
  lemma MergeKeepsUnmatched(items: seq<StoryboardItem>, settled: seq<SettledImage>, i: int)
    requires 0 <= i < |items|
    requires forall k :: 0 <= k < |settled| ==> settled[k].scene.sceneNumber != items[i].scene.sceneNumber
    ensures Merge(items, settled)[i] == items[i]
  {
    MergeAt(items, settled, i);
  }

  /**
   * The first item with a scene number that some result names is settled:
   * it is no longer loading and carries the last such result.
   */
  lemma MergeSettlesFirstMatch(items: seq<StoryboardItem>, settled: seq<SettledImage>, i: int, k: int)
    requires 0 <= i < |items| && 0 <= k < |settled|
    requires settled[k].scene.sceneNumber == items[i].scene.sceneNumber
    requires forall j :: 0 <= j < i ==> items[j].scene.sceneNumber != items[i].scene.sceneNumber
    ensures !Merge(items, settled)[i].isLoading
    ensures Merge(items, settled)[i] == Settled(settled[LastSettledIndex(settled, items[i].scene.sceneNumber)])
  {
    MergeAt(items, settled, i);
  }

  /** A later item repeating an earlier item's scene number is never touched. */
  lemma MergeSkipsLaterDuplicate(items: seq<StoryboardItem>, settled: seq<SettledImage>, j: int, i: int)
    requires 0 <= j < i < |items|
    requires items[j].scene.sceneNumber == items[i].scene.sceneNumber
    ensures Merge(items, settled)[i] == items[i]
  {
    MergeAt(items, settled, i);
  }

  /** No two scenes share a scene number. */
  predicate DistinctSceneNumbers(scenes: seq<Scene>)
  {
    forall i, j :: 0 <= i < j < |scenes| ==> scenes[i].sceneNumber != scenes[j].sceneNumber
  }

  /**
   * The storyboard once every image request of a run has settled: one item
   * per scene, each at its scene's position.
   */
  function FinalStoryboard(scenes: seq<Scene>, outcomes: nat -> ImageResult): (items: seq<StoryboardItem>)
    ensures |items| == |scenes|
    ensures forall i :: 0 <= i < |scenes| ==> items[i].scene.sceneNumber == scenes[i].sceneNumber
  {
    Merge(InitialStoryboard(scenes), Settle(scenes, outcomes))
  }

  /**
   * With distinct scene numbers, every scene ends settled with the outcome
   * of its own image request, in the scenes' order.
   */
  lemma AllSettledWhenDistinct(scenes: seq<Scene>, outcomes: nat -> ImageResult)
    requires DistinctSceneNumbers(scenes)
    ensures |FinalStoryboard(scenes, outcomes)| == |scenes|
    ensures forall i :: 0 <= i < |scenes| ==>
      FinalStoryboard(scenes, outcomes)[i] == StoryboardItem(scenes[i], ImageUrlFor(outcomes(i)), false)
  {
    var initial, settled := InitialStoryboard(scenes), Settle(scenes, outcomes);
    forall i | 0 <= i < |scenes|
      ensures FinalStoryboard(scenes, outcomes)[i] == StoryboardItem(scenes[i], ImageUrlFor(outcomes(i)), false)
    {
      var n := scenes[i].sceneNumber;
      MergeAt(initial, settled, i);
      FindIndexIs(initial, n, i);
      LastSettledIndexIs(settled, n, i);
    }
  }

  /**
   * With a repeated scene number, the later scene's item stays a loading
   * placeholder for good: `findIndex` only ever finds the first.
   */
  lemma LaterDuplicateStaysLoading(scenes: seq<Scene>, outcomes: nat -> ImageResult, j: int, k: int)
    requires 0 <= j < k < |scenes|
    requires scenes[j].sceneNumber == scenes[k].sceneNumber
    ensures FinalStoryboard(scenes, outcomes)[k] == Placeholder(scenes[k])
    ensures FinalStoryboard(scenes, outcomes)[k].isLoading
  {
    MergeSkipsLaterDuplicate(InitialStoryboard(scenes), Settle(scenes, outcomes), j, k);
  }

  /**
   * With a repeated scene number, the first item with that number shows the
   * scene and image of the LAST scene with that number.
   */
  lemma FirstDuplicateShowsLastScene(scenes: seq<Scene>, outcomes: nat -> ImageResult, j: int, k: int)
    requires 0 <= j < k < |scenes|
    requires scenes[j].sceneNumber == scenes[k].sceneNumber
    requires forall m :: 0 <= m < j ==> scenes[m].sceneNumber != scenes[j].sceneNumber
    requires forall m :: k < m < |scenes| ==> scenes[m].sceneNumber != scenes[k].sceneNumber
    ensures FinalStoryboard(scenes, outcomes)[j] == StoryboardItem(scenes[k], ImageUrlFor(outcomes(k)), false)
  {
    var initial, settled := InitialStoryboard(scenes), Settle(scenes, outcomes);
    var n := scenes[j].sceneNumber;
    MergeAt(initial, settled, j);
    FindIndexIs(initial, n, j);
    LastSettledIndexIs(settled, n, k);
  }

  /**
   * Image outcomes are independent: changing the outcome of scene k's
   * request can change only the item that scene k's result lands on.
   */
  lemma OutcomeAffectsOnlyItsItem(scenes: seq<Scene>, o1: nat -> ImageResult, o2: nat -> ImageResult, k: int, i: int)
    requires 0 <= k < |scenes| && 0 <= i < |scenes|
    requires forall m :: 0 <= m < |scenes| && m != k ==> o1(m) == o2(m)
    requires i != FindIndex(InitialStoryboard(scenes), scenes[k].sceneNumber)
    ensures FinalStoryboard(scenes, o1)[i] == FinalStoryboard(scenes, o2)[i]
  {
    var initial := InitialStoryboard(scenes);
    var s1, s2 := Settle(scenes, o1), Settle(scenes, o2);
    var n := scenes[i].sceneNumber;
    MergeAt(initial, s1, i);
    MergeAt(initial, s2, i);
    assert forall m :: 0 <= m < |scenes| ==> s1[m].scene == s2[m].scene;
    LastSettledIndexSameScenes(s1, s2, n);
    var last := LastSettledIndex(s1, n);
    if last >= 0 && last != k {
      assert s1[last] == s2[last];
    }
  }

  /**
   * With distinct scene numbers, changing the outcome of scene k's request
   * leaves every other scene's item as it was.
   */
  lemma DistinctOutcomeAffectsOnlyItsItem(scenes: seq<Scene>, o1: nat -> ImageResult, o2: nat -> ImageResult, k: int, i: int)
    requires DistinctSceneNumbers(scenes)
    requires 0 <= k < |scenes| && 0 <= i < |scenes| && i != k
    requires forall m :: 0 <= m < |scenes| && m != k ==> o1(m) == o2(m)
    ensures FinalStoryboard(scenes, o1)[i] == FinalStoryboard(scenes, o2)[i]
  {
    FindIndexIs(InitialStoryboard(scenes), scenes[k].sceneNumber, k);
    OutcomeAffectsOnlyItsItem(scenes, o1, o2, k, i);
  }

  lemma {:induction false} LastSettledIndexSameScenes(a: seq<SettledImage>, b: seq<SettledImage>, sceneNumber: int)
    requires |a| == |b|
    requires forall m :: 0 <= m < |a| ==> a[m].scene == b[m].scene
    ensures LastSettledIndex(a, sceneNumber) == LastSettledIndex(b, sceneNumber)
    decreases |a|
  {
    if a != [] && a[|a| - 1].scene.sceneNumber != sceneNumber {
      LastSettledIndexSameScenes(a[..|a| - 1], b[..|b| - 1], sceneNumber);
    }
  }
}

/**
 * The dictation drill: the learner types the writing challenge of the current
 * item, an answer counts when it equals the target up to surrounding
 * whitespace, and a wrong answer switches on a character-by-character
 * annotation of what was typed against the target.
 */
module Writing {
  import opened Wrappers
  import opened JsString
  import Catalog

  /** `isCorrect`: typed text and target agree once both are trimmed. */
  predicate IsCorrect(value: string, target: string)
    ensures value == target ==> IsCorrect(value, target)
  {
    Trim(value) == Trim(target)
  }

  /** Whitespace typed before or after an answer never changes the verdict. */
  lemma IsCorrectIgnoresPadding(w1: string, value: string, w2: string, target: string)
    requires AllWhitespace(w1) && AllWhitespace(w2)
    ensures IsCorrect(w1 + value + w2, target) <==> IsCorrect(value, target)
  {
    TrimIgnoresPadding(w1, value, w2);
  }

  /** An empty answer is accepted exactly when the target is blank. */
  lemma EmptyAnswer(target: string)
    ensures IsCorrect([], target) <==> AllWhitespace(target)
  {
    assert Trim([]) == [];
    TrimEmptyIff(target);
  }

  /** How one annotated character is drawn. */
  datatype Mark = Ghost | Correct | Wrong

  datatype Glyph = Glyph(ch: char, mark: Mark)

  /** The outcome shown under the input after a submit. */
  datatype Verdict = Right | Mistaken

  function Max(a: nat, b: nat): (m: nat)
    ensures m >= a && m >= b && (m == a || m == b)
  {
    if a < b then b else a
  }

  /**
   * `renderAnnotated`: walks positions up to the longer of target and typed
   * text. With the diff on, each typed character is shown, marked correct
   * when the target has the same character at that position; every other
   * position that the target covers shows the target character as a ghost.
   */
  method RenderAnnotated(target: string, value: string, showDiff: bool) returns (nodes: seq<Glyph>)
    ensures !showDiff ==> |nodes| == |target|
    ensures showDiff ==> |nodes| == Max(|target|, |value|)
    ensures showDiff ==> forall k :: 0 <= k < |value| ==>
      nodes[k] == Glyph(value[k], if k < |target| && value[k] == target[k] then Correct else Wrong)
    ensures forall k :: 0 <= k < |target| && (!showDiff || k >= |value|) ==>
      nodes[k] == Glyph(target[k], Ghost)
    ensures showDiff ==> ((forall k :: 0 <= k < |nodes| ==> nodes[k].mark == Correct) <==> value == target)
  {
    var maxLen := Max(|target|, |value|);
    nodes := [];
    for i := 0 to maxLen
      invariant showDiff ==> |nodes| == i
      invariant !showDiff ==> |nodes| == if i < |target| then i else |target|
      invariant showDiff ==> forall k :: 0 <= k < |nodes| && k < |value| ==>
        nodes[k] == Glyph(value[k], if k < |target| && value[k] == target[k] then Correct else Wrong)
      invariant forall k :: 0 <= k < |nodes| && k < |target| && (!showDiff || k >= |value|) ==>
        nodes[k] == Glyph(target[k], Ghost)
    {
      if showDiff && i < |value| {
        var mark := if i < |target| && value[i] == target[i] then Correct else Wrong;
        nodes := nodes + [Glyph(value[i], mark)];
      } else if i < |target| {
        nodes := nodes + [Glyph(target[i], Ghost)];
      }
    }
    if showDiff {
      AllCorrectIff(target, value, nodes);
    }
  }

  /** Under the diff, every mark is correct exactly when the typed text is the target. */
  lemma AllCorrectIff(target: string, value: string, nodes: seq<Glyph>)
    requires |nodes| == Max(|target|, |value|)
    requires forall k :: 0 <= k < |value| ==>
      nodes[k] == Glyph(value[k], if k < |target| && value[k] == target[k] then Correct else Wrong)
    requires forall k :: |value| <= k < |target| ==> nodes[k] == Glyph(target[k], Ghost)
    ensures (forall k :: 0 <= k < |nodes| ==> nodes[k].mark == Correct) <==> value == target
  {
    if value == target {
      forall k | 0 <= k < |nodes| ensures nodes[k].mark == Correct {
      }
    } else if |value| < |target| {
      assert nodes[|value|].mark != Correct;
    } else if |value| > |target| {
      assert nodes[|target|].mark != Correct;
    } else {
      assert exists k :: 0 <= k < |value| && value[k] != target[k];
      var k :| 0 <= k < |value| && value[k] != target[k];
      assert nodes[k].mark != Correct;
    }
  }

  class DictationDrill {
    const targets: seq<string>
    var index: nat
    var value: string
    var showDiff: bool
    var result: Option<Verdict>

    ghost predicate Valid()
      reads this
    {
      index < |targets|
    }

    /**
     * The screen reads the current item's challenge while rendering, so the
     * catalog must not be empty. Item i's challenge is target i.
     */
    constructor (catalog: seq<Catalog.Item>)
      requires |catalog| > 0
      ensures Valid()
      ensures |targets| == |catalog| && forall i :: 0 <= i < |catalog| ==> targets[i] == catalog[i].writingChallenge
      ensures index == 0 && value == [] && !showDiff && result == None
    {
      targets := seq(|catalog|, i requires 0 <= i < |catalog| => catalog[i].writingChallenge);
      index := 0;
      value := [];
      showDiff := false;
      result := None;
    }

    /**
     * `submit`. A correct answer before the last item moves on with a
     * clean slate; a correct answer on the last item only records the
     * verdict. A wrong answer turns the diff on and keeps position and text.
     */
    method Submit()
      requires Valid()
      modifies this`index, this`value, this`showDiff, this`result
      ensures Valid()
      ensures IsCorrect(old(value), targets[old(index)]) && old(index) < |targets| - 1 ==>
        index == old(index) + 1 && value == [] && !showDiff && result == None
      ensures IsCorrect(old(value), targets[old(index)]) && old(index) == |targets| - 1 ==>
        index == old(index) && value == old(value) && showDiff == old(showDiff) && result == Some(Right)
      ensures !IsCorrect(old(value), targets[old(index)]) ==>
        index == old(index) && value == old(value) && showDiff && result == Some(Mistaken)
    {
      if IsCorrect(value, targets[index]) {
        result := Some(Right);
        if index < |targets| - 1 {
          index := index + 1;
          value := [];
          showDiff := false;
          result := None;
        }
        return;
      }
      showDiff := true;
      result := Some(Mistaken);
    }

    /** `onChangeText`: the new text replaces the old; the diff and the verdict are cleared. */
    method OnChangeText(t: string)
      requires Valid()
      modifies this`value, this`showDiff, this`result
      ensures Valid()
      ensures value == t && !showDiff && result == None
      ensures index == old(index)
    {
      value := t;
      if showDiff {
        showDiff := false;
      }
      result := None;
    }
  }
}

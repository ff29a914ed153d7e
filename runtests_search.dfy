/**
 * The two search drivers of `tests/runtests.py`: `bisect_tests`, which halves
 * the label list until one label is left, and `paired_tests`, which tries the
 * labels one at a time. Running a child test process becomes the oracle
 * `fails`, true when the run with those labels reports failures.
 */
module TestSearch {
  import opened Common
  import opened TestSettings

  /** A test that must only run in specific combinations, so both drivers drop it. */
  const SameModelNameLabel := "model_inheritance_same_model_name"

  // ---------------------------------------------------------------------------
  // Preparing the label list

  /** `test_labels or get_installed()`. */
  function ChosenLabels(testLabels: seq<string>, installed: seq<string>): seq<string>
  {
    if |testLabels| == 0 then installed else testLabels
  }

  /** Position of the first occurrence of `x`. */
  function IndexOf(labels: seq<string>, x: string): (i: nat)
    requires x in labels
    ensures i < |labels| && labels[i] == x && x !in labels[..i]
  {
    if labels[0] == x then 0 else 1 + IndexOf(labels[1..], x)
  }

  /** Python's `labels.remove(x)`, with the `ValueError` of a missing `x` ignored. */
  function RemoveFirst(labels: seq<string>, x: string): (r: seq<string>)
    ensures x !in labels ==> r == labels
    ensures |r| == if x in labels then |labels| - 1 else |labels|
  {
    if |labels| == 0 then []
    else if labels[0] == x then labels[1..]
    else
      assert x in labels <==> x in labels[1..];
      [labels[0]] + RemoveFirst(labels[1..], x)
  }

  /** Removal takes exactly one occurrence of `x` out of the multiset of labels, if there is one. */
  lemma {:induction false} RemoveFirstMultiset(labels: seq<string>, x: string)
    ensures multiset(RemoveFirst(labels, x)) == multiset(labels) - multiset{x}
  {
    if |labels| > 0 {
      assert labels == [labels[0]] + labels[1..];
      if labels[0] != x {
        RemoveFirstMultiset(labels[1..], x);
      }
    }
  }

  /** Removal cuts out the first occurrence and keeps the order of the rest. */
  lemma {:induction false} RemoveFirstCutsFirst(labels: seq<string>, x: string)
    requires x in labels
    ensures RemoveFirst(labels, x) == labels[..IndexOf(labels, x)] + labels[IndexOf(labels, x) + 1..]
  {
    if labels[0] != x {
      var tail := labels[1..];
      RemoveFirstCutsFirst(tail, x);
      var i := IndexOf(tail, x);
      assert IndexOf(labels, x) == i + 1;
      assert RemoveFirst(labels, x) == [labels[0]] + (tail[..i] + tail[i + 1..]);
      assert [labels[0]] + tail[..i] == labels[..i + 1];
      assert tail[i + 1..] == labels[i + 2..];
    }
  }

  /** The list after both removals that precede the search. */
  function WithoutPinned(labels: seq<string>, pinned: string): seq<string>
  {
    RemoveFirst(RemoveFirst(labels, pinned), SameModelNameLabel)
  }

  // ---------------------------------------------------------------------------
  // Bisection

  /** How a bisection ends. */
  datatype Verdict =
    | SourceOfError(culprit: string)  // one label is left and is reported
    | MultipleSources                 // both halves failed
    | NoSourceFound                   // neither half failed
    | NothingLeft                     // the list was empty from the start

  /** The labels left when the search stopped, and why it stopped. */
  datatype Bisection = Bisection(remaining: seq<string>, verdict: Verdict)

  /** `test_labels_a`: the first half followed by the bisection label. */
  function HalfA(labels: seq<string>, bisectionLabel: string): seq<string>
  {
    labels[..|labels| / 2] + [bisectionLabel]
  }

  /** `test_labels_b`: the second half followed by the bisection label. */
  function HalfB(labels: seq<string>, bisectionLabel: string): seq<string>
  {
    labels[|labels| / 2..] + [bisectionLabel]
  }

  /**
   * On a list of two or more labels, the halves without their trailing
   * bisection label are non-empty, strictly shorter, and concatenate to the list.
   */
  lemma HalvesPartition(labels: seq<string>, bisectionLabel: string)
    requires |labels| >= 2
    ensures var a, b := HalfA(labels, bisectionLabel), HalfB(labels, bisectionLabel);
      a[|a| - 1] == bisectionLabel && b[|b| - 1] == bisectionLabel &&
      1 <= |a| - 1 < |labels| && 1 <= |b| - 1 < |labels| &&
      a[..|a| - 1] + b[..|b| - 1] == labels
  {
    var a, b := HalfA(labels, bisectionLabel), HalfB(labels, bisectionLabel);
    assert a[..|a| - 1] == labels[..|labels| / 2];
    assert b[..|b| - 1] == labels[|labels| / 2..];
  }

  /** The `while` loop of `bisect_tests`, run from the list `labels`. */
  function BisectFrom(labels: seq<string>, bisectionLabel: string, fails: seq<string> -> bool): (r: Bisection)
    ensures |r.remaining| <= |labels|
    ensures |r.remaining| == |labels| ==> r.remaining == labels
    decreases |labels|
  {
    if |labels| <= 1 then
      Bisection(labels, if |labels| == 1 then SourceOfError(labels[0]) else NothingLeft)
    else
      var mid := |labels| / 2;
      var failuresA := fails(HalfA(labels, bisectionLabel));
      var failuresB := fails(HalfB(labels, bisectionLabel));
      if failuresA && !failuresB then BisectFrom(labels[..mid], bisectionLabel, fails)
      else if failuresB && !failuresA then BisectFrom(labels[mid..], bisectionLabel, fails)
      else if failuresA && failuresB then Bisection(labels, MultipleSources)
      else Bisection(labels, NoSourceFound)
  }

  /**
   * One round of the loop: the search either stops on the list it has or goes
   * on from its first or its second half.
   */
  lemma BisectOneRound(labels: seq<string>, bisectionLabel: string, fails: seq<string> -> bool)
    requires |labels| >= 2
    ensures var r := BisectFrom(labels, bisectionLabel, fails);
      r.remaining == labels ||
      r == BisectFrom(labels[..|labels| / 2], bisectionLabel, fails) ||
      r == BisectFrom(labels[|labels| / 2..], bisectionLabel, fails)
  {
  }

  /** `sub` is a contiguous run of `s`. */
  predicate IsRun<T(==)>(sub: seq<T>, s: seq<T>)
  {
    exists i, j :: 0 <= i <= j <= |s| && sub == s[i..j]
  }

  /** A run of a run of `s` is a run of `s`. */
  lemma RunOfRun<T>(sub: seq<T>, s: seq<T>, lo: int, hi: int)
    requires 0 <= lo <= hi <= |s|
    requires IsRun(sub, s[lo..hi])
    ensures IsRun(sub, s)
  {
    var i, j :| 0 <= i <= j <= hi - lo && sub == s[lo..hi][i..j];
    forall k | 0 <= k < j - i ensures sub[k] == s[lo + i..lo + j][k] {
      assert sub[k] == s[lo..hi][i + k];
    }
    assert sub == s[lo + i..lo + j];
  }

  /** The labels left are a contiguous run of the starting list. */
  lemma {:induction false} BisectRemainingIsSlice(labels: seq<string>, bisectionLabel: string, fails: seq<string> -> bool)
    ensures IsRun(BisectFrom(labels, bisectionLabel, fails).remaining, labels)
    decreases |labels|
  {
    var r := BisectFrom(labels, bisectionLabel, fails);
    if |labels| <= 1 || r.remaining == labels {
      assert r.remaining == labels[0..|labels|];
    } else {
      var mid := |labels| / 2;
      BisectOneRound(labels, bisectionLabel, fails);
      if r == BisectFrom(labels[..mid], bisectionLabel, fails) {
        BisectRemainingIsSlice(labels[..mid], bisectionLabel, fails);
        assert labels[..mid] == labels[0..mid];
        RunOfRun(r.remaining, labels, 0, mid);
      } else {
        BisectRemainingIsSlice(labels[mid..], bisectionLabel, fails);
        assert labels[mid..] == labels[mid..|labels|];
        RunOfRun(r.remaining, labels, mid, |labels|);
      }
    }
  }

  /**
   * Once the list has been narrowed, the labels left, run together with the
   * bisection label, fail: every narrowing keeps a half that failed.
   */
  lemma {:induction false} BisectNarrowedFails(labels: seq<string>, bisectionLabel: string, fails: seq<string> -> bool)
    ensures var r := BisectFrom(labels, bisectionLabel, fails);
      |r.remaining| < |labels| ==> fails(r.remaining + [bisectionLabel])
    decreases |labels|
  {
    if |labels| >= 2 {
      var mid := |labels| / 2;
      var failuresA := fails(HalfA(labels, bisectionLabel));
      var failuresB := fails(HalfB(labels, bisectionLabel));
      if failuresA && !failuresB {
        BisectNarrowedFails(labels[..mid], bisectionLabel, fails);
      } else if failuresB && !failuresA {
        BisectNarrowedFails(labels[mid..], bisectionLabel, fails);
      }
    }
  }

  /** What each verdict says about the labels left. */
  lemma {:induction false} BisectVerdicts(labels: seq<string>, bisectionLabel: string, fails: seq<string> -> bool)
    ensures var r := BisectFrom(labels, bisectionLabel, fails);
      (r.verdict.SourceOfError? <==> |r.remaining| == 1) &&
      (r.verdict.SourceOfError? ==> r.remaining == [r.verdict.culprit]) &&
      (r.verdict == NothingLeft <==> labels == []) &&
      (r.verdict == MultipleSources ==>
        |r.remaining| >= 2 && fails(HalfA(r.remaining, bisectionLabel)) && fails(HalfB(r.remaining, bisectionLabel))) &&
      (r.verdict == NoSourceFound ==>
        |r.remaining| >= 2 && !fails(HalfA(r.remaining, bisectionLabel)) && !fails(HalfB(r.remaining, bisectionLabel)))
    decreases |labels|
  {
    if |labels| >= 2 {
      var mid := |labels| / 2;
      var failuresA := fails(HalfA(labels, bisectionLabel));
      var failuresB := fails(HalfB(labels, bisectionLabel));
      if failuresA && !failuresB {
        BisectVerdicts(labels[..mid], bisectionLabel, fails);
      } else if failuresB && !failuresA {
        BisectVerdicts(labels[mid..], bisectionLabel, fails);
      }
    }
  }

  /**
   * A reported source of error, found from two or more labels, is one of them
   * and fails when run together with the bisection label.
   */
  lemma BisectSourceFails(labels: seq<string>, bisectionLabel: string, fails: seq<string> -> bool)
    requires |labels| >= 2
    requires BisectFrom(labels, bisectionLabel, fails).verdict.SourceOfError?
    ensures var culprit := BisectFrom(labels, bisectionLabel, fails).verdict.culprit;
      culprit in labels && fails([culprit, bisectionLabel])
  {
    var r := BisectFrom(labels, bisectionLabel, fails);
    BisectVerdicts(labels, bisectionLabel, fails);
    BisectNarrowedFails(labels, bisectionLabel, fails);
    BisectRemainingIsSlice(labels, bisectionLabel, fails);
    var i, j :| 0 <= i <= j <= |labels| && r.remaining == labels[i..j];
    assert r.remaining[0] == labels[i];
    assert r.remaining + [bisectionLabel] == [r.verdict.culprit, bisectionLabel];
  }

  /**
   * `bisect_tests` after `setup`: choose the labels, drop the bisection label
   * and `model_inheritance_same_model_name`, then halve while more than one
   * label is left. The pass counter and the messages only print.
   */
  method BisectLabels(bisectionLabel: string, testLabels: seq<string>, installed: seq<string>, fails: seq<string> -> bool)
    returns (result: Bisection)
    ensures result == BisectFrom(WithoutPinned(ChosenLabels(testLabels, installed), bisectionLabel), bisectionLabel, fails)
  {
    var labels := ChosenLabels(testLabels, installed);
    labels := RemoveFirst(labels, bisectionLabel);
    labels := RemoveFirst(labels, SameModelNameLabel);
    ghost var start := labels;

    var verdict := NothingLeft;
    while |labels| > 1
      invariant BisectFrom(labels, bisectionLabel, fails) == BisectFrom(start, bisectionLabel, fails)
      decreases |labels|
    {
      var midpoint := |labels| / 2;
      var labelsA := labels[..midpoint] + [bisectionLabel];
      var labelsB := labels[midpoint..] + [bisectionLabel];
      var failuresA := fails(labelsA);
      var failuresB := fails(labelsB);
      assert labelsA == HalfA(labels, bisectionLabel) && labelsB == HalfB(labels, bisectionLabel);
      if failuresA && !failuresB {
        labels := labelsA[..|labelsA| - 1];
      } else if failuresB && !failuresA {
        labels := labelsB[..|labelsB| - 1];
      } else if failuresA && failuresB {
        verdict := MultipleSources;
        break;
      } else {
        verdict := NoSourceFound;
        break;
      }
    }
    if |labels| == 1 {
      verdict := SourceOfError(labels[0]);
    }
    result := Bisection(labels, verdict);
  }

  /** `bisect_tests` after `setup`: the search, then `teardown` of the saved state. */
  method BisectTests(env: TestEnvironment, state: map<string, Setting>, bisectionLabel: string,
                     testLabels: seq<string>, installed: seq<string>, fails: seq<string> -> bool)
    returns (result: Bisection)
    modifies env
    ensures result == BisectFrom(WithoutPinned(ChosenLabels(testLabels, installed), bisectionLabel), bisectionLabel, fails)
    ensures env.settings == old(env.settings) + state
    ensures env.alwaysInstalledApps == old(env.alwaysInstalledApps)
  {
    result := BisectLabels(bisectionLabel, testLabels, installed, fails);
    env.Teardown(state);
  }

  // ---------------------------------------------------------------------------
  // Paired execution

  /**
   * The `for` loop of `paired_tests`: the index of the first label whose run
   * together with `pairedTest` fails, or None when no pair fails.
   */
  method FindProblemPair(pairedTest: string, labels: seq<string>, fails: seq<string> -> bool)
    returns (found: Option<nat>)
    ensures found.Some? ==> found.value < |labels| && fails([labels[found.value], pairedTest])
    ensures found.Some? ==> forall j :: 0 <= j < found.value ==> !fails([labels[j], pairedTest])
    ensures found.None? ==> forall j :: 0 <= j < |labels| ==> !fails([labels[j], pairedTest])
  {
    for i := 0 to |labels|
      invariant forall j :: 0 <= j < i ==> !fails([labels[j], pairedTest])
    {
      var failures := fails([labels[i], pairedTest]);
      if failures {
        return Some(i);
      }
    }
    return None;
  }

  /**
   * `paired_tests` after `setup`: choose the labels, drop the paired test and
   * `model_inheritance_same_model_name`, scan, and run `teardown` only when
   * no failing pair was found.
   */
  method PairedTests(env: TestEnvironment, state: map<string, Setting>, pairedTest: string,
                     testLabels: seq<string>, installed: seq<string>, fails: seq<string> -> bool)
    returns (found: Option<nat>)
    modifies env
    ensures var labels := WithoutPinned(ChosenLabels(testLabels, installed), pairedTest);
      (found.Some? ==> found.value < |labels| && fails([labels[found.value], pairedTest]) &&
                       forall j :: 0 <= j < found.value ==> !fails([labels[j], pairedTest])) &&
      (found.None? ==> forall j :: 0 <= j < |labels| ==> !fails([labels[j], pairedTest]))
    ensures found.Some? ==> env.settings == old(env.settings)
    ensures found.None? ==> env.settings == old(env.settings) + state
    ensures env.alwaysInstalledApps == old(env.alwaysInstalledApps)
  {
    var labels := ChosenLabels(testLabels, installed);
    labels := RemoveFirst(labels, pairedTest);
    labels := RemoveFirst(labels, SameModelNameLabel);
    found := FindProblemPair(pairedTest, labels, fails);
    if found.None? {
      env.Teardown(state);
    }
  }
}

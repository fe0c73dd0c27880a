/**
 The model part of app/services/cleanup.py: a test per active model and run, a
 count of consecutive failures, a premium mark, and a mark for models missing
 from their provider's listing.

 `RunCleanupModels` updates the rows in place.  What it does to one row depends
 on that row's `Observation` only, and the history of a row's observations says
 exactly when the row is deactivated.
 */
module ModelHealth {
  import opened Wrappers
  import opened Text

  const MODEL_FAIL_THRESHOLD := 3

  // ---------------------------------------------------------------- data

  datatype Meta = Meta(failCount: int, premium: bool, missing: bool)

  datatype Model = Model(id: string, providerId: string, internalModel: string, isActive: bool, meta: Meta)

  // What a test of a model reports: `Passed` covers the categories "ok" and
  // "listed", `Failed` "error" and "rate_limited".
  datatype Status = Passed | Premium | Failed

  // What one cleanup run meets outside: the reply to the test of a model id,
  // and the second listing of a provider, None when it cannot be had.
  datatype Outside = Outside(reply: string -> Status, listing: string -> Option<seq<string>>)

  const IMAGE_HINTS := [
    "gpt-image", "dall-e", "dalle", "imagen", "flux", "stable-diffusion", "sdxl", "midjourney", "image-gen", "imagegen"]

  function Lower(s: string): string {
    if s == "" then ""
    else [if 'A' <= s[0] <= 'Z' then s[0] - 'A' + 'a' else s[0]] + Lower(s[1..])
  }

  predicate IsImageModel(name: string) {
    exists hint :: hint in IMAGE_HINTS && OccursIn(hint, Lower(name))
  }

  // Image models are never pinged.
  function Test(name: string, reply: Status): Status {
    if IsImageModel(name) then Passed else reply
  }

  // ---------------------------------------------------------------- one row in one run

  // Step 2: test, count, deactivate.
  function Tested(providers: seq<string>, out: Outside, m: Model): Model {
    if !m.isActive || m.providerId !in providers || m.meta.premium then m
    else
      match Test(m.internalModel, out.reply(m.id))
      case Passed => m.(meta := m.meta.(failCount := 0))
      case Premium => m.(meta := m.meta.(failCount := 0, premium := true))
      case Failed =>
        var count := m.meta.failCount + 1;
        m.(meta := m.meta.(failCount := count),
           isActive := !(count >= MODEL_FAIL_THRESHOLD && m.meta.missing))
  }

  predicate AbsentFrom(provider: string, out: Outside, m: Model) {
    m.providerId == provider && out.listing(provider).Some? && m.internalModel !in out.listing(provider).value
  }

  // Step 2b for one provider.
  function MarkedBy(provider: string, out: Outside, m: Model): Model {
    if m.isActive && AbsentFrom(provider, out, m) then m.(meta := m.meta.(missing := true)) else m
  }

  function MarkedByAll(providers: seq<string>, out: Outside, m: Model): Model {
    if providers == [] then m
    else MarkedBy(providers[|providers| - 1], out, MarkedByAll(providers[..|providers| - 1], out, m))
  }

  function Cleaned(providers: seq<string>, out: Outside, m: Model): Model {
    MarkedByAll(providers, out, Tested(providers, out, m))
  }

  // ---------------------------------------------------------------- the loops

  ghost function Deactivations(before: seq<Model>, after: seq<Model>): nat
    requires |before| == |after|
  {
    if before == [] then 0
    else
      var n := |before| - 1;
      Deactivations(before[..n], after[..n]) + if before[n].isActive && !after[n].isActive then 1 else 0
  }

  lemma {:induction false} DeactivationsStep(before: seq<Model>, after: seq<Model>)
    requires |before| == |after| > 0
    ensures var n := |before| - 1;
            Deactivations(before, after) ==
            Deactivations(before[..n], after[..n]) + if before[n].isActive && !after[n].isActive then 1 else 0
  {
  }

  // One row's test: its new metadata, and whether it is deactivated.
  method TestRow(providers: seq<string>, out: Outside, models: array<Model>, i: nat) returns (dead: bool)
    requires i < models.Length
    modifies models
    ensures models[i] == Tested(providers, out, old(models[i]))
    ensures forall j :: 0 <= j < models.Length && j != i ==> models[j] == old(models[j])
    ensures dead <==> old(models[i]).isActive && !models[i].isActive
  {
    dead := false;
    var m := models[i];
    if m.isActive && m.providerId in providers && !m.meta.premium {
      var status := Test(m.internalModel, out.reply(m.id));
      if status == Passed || status == Premium {
        models[i] := m.(meta := Meta(0, m.meta.premium || status == Premium, m.meta.missing));
      } else {
        var failCount := m.meta.failCount + 1;
        models[i] := m.(meta := m.meta.(failCount := failCount));
        if failCount >= MODEL_FAIL_THRESHOLD && m.meta.missing {
          models[i] := models[i].(isActive := false);
          dead := true;
        }
      }
    }
  }

  method TestModels(providers: seq<string>, out: Outside, models: array<Model>) returns (deactivated: nat)
    modifies models
    ensures forall i :: 0 <= i < models.Length ==> models[i] == Tested(providers, out, old(models[i]))
    ensures deactivated == Deactivations(old(models[..]), models[..])
  {
    deactivated := 0;
    ghost var before := models[..];
    assert Deactivations(before[..0], models[..0]) == 0;
    hide Tested, Deactivations;
    for i := 0 to models.Length
      invariant forall j :: 0 <= j < i ==> models[j] == Tested(providers, out, before[j])
      invariant forall j :: i <= j < models.Length ==> models[j] == before[j]
      invariant deactivated == Deactivations(before[..i], models[..i])
    {
      ghost var done := models[..i];
      var dead := TestRow(providers, out, models, i);
      assert models[..i + 1][..i] == done && before[..i + 1][..i] == before[..i];
      DeactivationsStep(before[..i + 1], models[..i + 1]);
      if dead {
        deactivated := deactivated + 1;
      }
    }
    assert before[..models.Length] == before && models[..models.Length] == models[..];
  }

  method MarkMissing(providers: seq<string>, out: Outside, models: array<Model>)
    modifies models
    ensures forall i :: 0 <= i < models.Length ==> models[i] == MarkedByAll(providers, out, old(models[i]))
  {
    ghost var before := models[..];
    for p := 0 to |providers|
      invariant forall j :: 0 <= j < models.Length ==> models[j] == MarkedByAll(providers[..p], out, before[j])
    {
      assert providers[..p + 1][..p] == providers[..p];
      var provider := providers[p];
      var listed := out.listing(provider);
      if listed.Some? {
        ghost var round := models[..];
        for i := 0 to models.Length
          invariant forall j :: 0 <= j < i ==> models[j] == MarkedBy(provider, out, round[j])
          invariant forall j :: i <= j < models.Length ==> models[j] == round[j]
        {
          var m := models[i];
          if m.providerId == provider && m.isActive && m.internalModel !in listed.value {
            if !m.meta.missing {
              models[i] := m.(meta := m.meta.(missing := true));
            }
          }
        }
      }
    }
    assert providers[..|providers|] == providers;
  }

  method RunCleanupModels(providers: seq<string>, out: Outside, models: array<Model>) returns (deactivated: nat)
    modifies models
    ensures forall i :: 0 <= i < models.Length ==> models[i] == Cleaned(providers, out, old(models[i]))
    ensures deactivated == Deactivations(old(models[..]), models[..])
  {
    ghost var before := models[..];
    deactivated := TestModels(providers, out, models);
    ghost var tested := models[..];
    MarkMissing(providers, out, models);
    forall i | 0 <= i < models.Length ensures models[i].isActive == tested[i].isActive {
      MarkingKeepsActivity(providers, out, tested[i]);
    }
    SameActivity(before, tested, models[..]);
  }

  lemma {:induction false} MarkingKeepsActivity(providers: seq<string>, out: Outside, m: Model)
    ensures MarkedByAll(providers, out, m).isActive == m.isActive
  {
    if providers != [] { MarkingKeepsActivity(providers[..|providers| - 1], out, m); }
  }

  lemma {:induction false} SameActivity(before: seq<Model>, a: seq<Model>, b: seq<Model>)
    requires |before| == |a| == |b| && forall i :: 0 <= i < |a| ==> a[i].isActive == b[i].isActive
    ensures Deactivations(before, a) == Deactivations(before, b)
  {
    if before != [] {
      var n := |before| - 1;
      SameActivity(before[..n], a[..n], b[..n]);
    }
  }

  // ---------------------------------------------------------------- a row's history

  // What happens to one row: a cleanup run that could test it (its provider is
  // known) and may have found it absent from a listing, or a discovery test
  // that marked it premium.
  datatype Observation = Cleanup(known: bool, reply: Status, absent: bool) | DiscoveredPremium

  function Observe(providers: seq<string>, out: Outside, m: Model): Observation {
    Cleanup(m.providerId in providers, out.reply(m.id), m.providerId in providers && AbsentFrom(m.providerId, out, m))
  }

  function Step(m: Model, o: Observation): Model {
    match o
    case DiscoveredPremium => m.(meta := m.meta.(premium := true))
    case Cleanup(known, reply, absent) =>
      var t :=
        if !m.isActive || !known || m.meta.premium then m
        else
          match Test(m.internalModel, reply)
          case Passed => m.(meta := m.meta.(failCount := 0))
          case Premium => m.(meta := m.meta.(failCount := 0, premium := true))
          case Failed =>
            m.(meta := m.meta.(failCount := m.meta.failCount + 1),
               isActive := !(m.meta.failCount + 1 >= MODEL_FAIL_THRESHOLD && m.meta.missing));
      if t.isActive && absent then t.(meta := t.meta.(missing := true)) else t
  }

  // A cleanup run treats a row by its observation alone.
  lemma {:induction false} CleanedIsStep(providers: seq<string>, out: Outside, m: Model)
    ensures Cleaned(providers, out, m) == Step(m, Observe(providers, out, m))
  {
    MarkedOnce(providers, out, Tested(providers, out, m));
  }

  lemma {:induction false} MarkedOnce(providers: seq<string>, out: Outside, m: Model)
    ensures MarkedByAll(providers, out, m) ==
            if m.isActive && m.providerId in providers && AbsentFrom(m.providerId, out, m)
            then m.(meta := m.meta.(missing := true)) else m
  {
    if providers != [] {
      var n := |providers| - 1;
      assert providers == providers[..n] + [providers[n]];
      MarkedOnce(providers[..n], out, m);
    }
  }

  function Run(m: Model, h: seq<Observation>): Model {
    if h == [] then m else Step(Run(m, h[..|h| - 1]), h[|h| - 1])
  }

  predicate FreshModel(m: Model) {
    m.isActive && m.meta == Meta(0, false, false)
  }

  // ---------------------------------------------------------------- the history alone

  ghost predicate PremiumSeen(name: string, h: seq<Observation>) {
    h != [] &&
    (PremiumSeen(name, h[..|h| - 1])
     || h[|h| - 1].DiscoveredPremium?
     || (h[|h| - 1].known && Test(name, h[|h| - 1].reply) == Premium))
  }

  // Observation `i` is a test of the model.
  ghost predicate IsTest(name: string, h: seq<Observation>, i: nat)
    requires i < |h|
  {
    h[i].Cleanup? && h[i].known && !PremiumSeen(name, h[..i])
  }

  // The outcomes of the tests, in order.
  ghost function Outcomes(name: string, h: seq<Observation>): seq<Status> {
    if h == [] then []
    else
      var n := |h| - 1;
      Outcomes(name, h[..n]) + if IsTest(name, h, n) then [Test(name, h[n].reply)] else []
  }

  ghost predicate AbsentSeen(h: seq<Observation>) {
    exists i :: 0 <= i < |h| && h[i].Cleanup? && h[i].absent
  }

  ghost predicate LastThreeFailed(outcomes: seq<Status>) {
    var n := |outcomes|;
    n >= 3 && outcomes[n - 1] == Failed && outcomes[n - 2] == Failed && outcomes[n - 3] == Failed
  }

  // The run at position `i` completes three failed tests in a row, and some
  // strictly earlier run found the model absent.
  ghost predicate Condemns(name: string, h: seq<Observation>, i: nat)
    requires i < |h|
  {
    IsTest(name, h, i) && LastThreeFailed(Outcomes(name, h[..i + 1])) && AbsentSeen(h[..i])
  }

  ghost predicate Condemned(name: string, h: seq<Observation>) {
    exists i: nat :: i < |h| && Condemns(name, h, i)
  }

  // ---------------------------------------------------------------- state and history agree

  ghost function TrailingFailures(outcomes: seq<Status>): nat {
    if outcomes == [] || outcomes[|outcomes| - 1] != Failed then 0
    else 1 + TrailingFailures(outcomes[..|outcomes| - 1])
  }

  lemma {:induction false} TrailingAtLeast(outcomes: seq<Status>, k: nat)
    ensures TrailingFailures(outcomes) >= k <==>
            k <= |outcomes| && forall i :: |outcomes| - k <= i < |outcomes| ==> outcomes[i] == Failed
    decreases k
  {
    if k > 0 && outcomes != [] {
      TrailingAtLeast(outcomes[..|outcomes| - 1], k - 1);
    }
  }

  lemma {:induction false} CondemnedStep(name: string, h: seq<Observation>)
    requires h != []
    ensures var n := |h| - 1; Condemned(name, h) <==> Condemned(name, h[..n]) || Condemns(name, h, n)
  {
    var n := |h| - 1;
    forall i: nat | i < n ensures Condemns(name, h, i) <==> Condemns(name, h[..n], i) {
      assert h[..n][..i] == h[..i] && h[..n][..i + 1] == h[..i + 1];
    }
  }

  lemma {:induction false} AbsentStep(h: seq<Observation>)
    requires h != []
    ensures var n := |h| - 1; AbsentSeen(h) <==> AbsentSeen(h[..n]) || (h[n].Cleanup? && h[n].absent)
  {
  }

  // While a model is active, its row is exactly what its history says.
  ghost predicate Mirrors(name: string, h: seq<Observation>, m: Model) {
    && m.internalModel == name
    && (m.isActive <==> !Condemned(name, h))
    && (m.isActive ==>
          && m.meta.failCount == TrailingFailures(Outcomes(name, h))
          && m.meta.premium == PremiumSeen(name, h)
          && m.meta.missing == AbsentSeen(h))
  }

  lemma {:induction false} StepMirrors(m: Model, name: string, h: seq<Observation>)
    requires h != [] && Mirrors(name, h[..|h| - 1], m)
    ensures Mirrors(name, h, Step(m, h[|h| - 1]))
  {
    var n := |h| - 1;
    var before, outcomes := Outcomes(name, h[..n]), Outcomes(name, h);
    CondemnedStep(name, h);
    AbsentStep(h);
    TrailingAtLeast(outcomes, 3);
    assert h[..n + 1] == h;
    if IsTest(name, h, n) {
      assert outcomes[..|outcomes| - 1] == before;
    } else {
      assert outcomes == before;
    }
    hide Condemned, AbsentSeen, Outcomes, Lower, IsImageModel;
    if IsTest(name, h, n) { TrailingStep(before, Test(name, h[n].reply)); }
    hide TrailingFailures;
  }

  lemma {:induction false} TrailingStep(outcomes: seq<Status>, s: Status)
    ensures TrailingFailures(outcomes + [s]) == if s == Failed then TrailingFailures(outcomes) + 1 else 0
  {
    assert (outcomes + [s])[..|outcomes|] == outcomes;
  }

  lemma {:induction false} RunMirrors(m: Model, h: seq<Observation>)
    requires FreshModel(m)
    ensures Mirrors(m.internalModel, h, Run(m, h))
  {
    if h != [] {
      RunMirrors(m, h[..|h| - 1]);
      StepMirrors(Run(m, h[..|h| - 1]), m.internalModel, h);
    }
  }

  // ---------------------------------------------------------------- what operators rely on

  // From a fresh model, automation deactivates it exactly when its last three
  // tests all failed without a premium reply and some strictly earlier run had
  // found it absent from its provider's listing.
  lemma {:induction false} DeactivatedIffCondemned(m: Model, h: seq<Observation>)
    requires FreshModel(m)
    ensures !Run(m, h).isActive <==> Condemned(m.internalModel, h)
  {
    RunMirrors(m, h);
  }

  datatype CleanupRun = CleanupRun(providers: seq<string>, out: Outside)

  // One row after a whole series of cleanup runs.
  function AfterRuns(m: Model, runs: seq<CleanupRun>): Model {
    if runs == [] then m
    else
      var last := runs[|runs| - 1];
      Cleaned(last.providers, last.out, AfterRuns(m, runs[..|runs| - 1]))
  }

  // The observations those runs make of it.
  function History(m: Model, runs: seq<CleanupRun>): seq<Observation> {
    if runs == [] then []
    else
      var last := runs[|runs| - 1];
      History(m, runs[..|runs| - 1]) + [Observe(last.providers, last.out, m)]
  }

  lemma {:induction false} RunsFollowHistory(m: Model, runs: seq<CleanupRun>)
    ensures AfterRuns(m, runs) == Run(m, History(m, runs))
    ensures var r := AfterRuns(m, runs);
            r.id == m.id && r.providerId == m.providerId && r.internalModel == m.internalModel
  {
    if runs != [] {
      var before, last := runs[..|runs| - 1], runs[|runs| - 1];
      RunsFollowHistory(m, before);
      CleanedIsStep(last.providers, last.out, AfterRuns(m, before));
      var h := History(m, runs);
      assert h[..|h| - 1] == History(m, before);
    }
  }

  // The same for whole cleanup runs, whatever providers, replies and listings
  // each of them met.
  lemma {:induction false} CleanupDeactivatesIffCondemned(m: Model, runs: seq<CleanupRun>)
    requires FreshModel(m)
    ensures !AfterRuns(m, runs).isActive <==> Condemned(m.internalModel, History(m, runs))
  {
    RunsFollowHistory(m, runs);
    DeactivatedIffCondemned(m, History(m, runs));
  }

  // A model once seen as premium while active, or with the name of an image
  // model, is never deactivated.
  lemma {:induction false} PremiumAndImageModelsStay(m: Model, h: seq<Observation>, more: seq<Observation>)
    requires FreshModel(m) && Run(m, h).isActive
    requires PremiumSeen(m.internalModel, h) || IsImageModel(m.internalModel)
    ensures Run(m, h + more).isActive
  {
    if more == [] {
      assert h + more == h;
    } else {
      var n := |more| - 1;
      var all := h + more;
      assert all[..|all| - 1] == h + more[..n];
      PremiumAndImageModelsStay(m, h, more[..n]);
      RunMirrors(m, h + more[..n]);
      if PremiumSeen(m.internalModel, h) { PremiumStays(m.internalModel, h, more[..n]); }
    }
  }

  lemma {:induction false} PremiumStays(name: string, h: seq<Observation>, more: seq<Observation>)
    requires PremiumSeen(name, h)
    ensures PremiumSeen(name, h + more)
  {
    if more == [] {
      assert h + more == h;
    } else {
      var all := h + more;
      assert all[..|all| - 1] == h + more[..|more| - 1];
      PremiumStays(name, h, more[..|more| - 1]);
    }
  }

  // Nothing in these runs brings a deactivated model back.
  lemma {:induction false} NeverReactivated(m: Model, h: seq<Observation>, more: seq<Observation>)
    requires !Run(m, h).isActive
    ensures !Run(m, h + more).isActive
  {
    if more == [] {
      assert h + more == h;
    } else {
      var all := h + more;
      assert all[..|all| - 1] == h + more[..|more| - 1];
      NeverReactivated(m, h, more[..|more| - 1]);
    }
  }

  // A listing without the model does nothing by itself: as long as no three
  // tests in a row fail, the model stays.
  lemma {:induction false} MissingAloneNeverDeactivates(m: Model, h: seq<Observation>)
    requires FreshModel(m)
    requires forall i: nat :: i < |h| && IsTest(m.internalModel, h, i) ==>
               !LastThreeFailed(Outcomes(m.internalModel, h[..i + 1]))
    ensures Run(m, h).isActive
  {
    DeactivatedIffCondemned(m, h);
  }

  // ---------------------------------------------------------------- in plain terms

  lemma {:induction false} LowerAt(s: string, i: nat)
    requires i < |s|
    ensures |Lower(s)| == |s|
    ensures Lower(s)[i] == if 'A' <= s[i] <= 'Z' then (s[i] as int + 32) as char else s[i]
  {
    if |s| > 1 { LowerAt(s[1..], if i > 0 then i - 1 else 0); }
  }

  // Image models are those with one of these hints in their lower-case name.
  lemma {:induction false} ImageNamesIff(name: string)
    ensures IsImageModel(name) <==>
            exists a, hint, b ::
              && hint in {"gpt-image", "dall-e", "dalle", "imagen", "flux", "stable-diffusion", "sdxl", "midjourney",
                          "image-gen", "imagegen"}
              && Lower(name) == a + hint + b
  {
    var hints := {"gpt-image", "dall-e", "dalle", "imagen", "flux", "stable-diffusion", "sdxl", "midjourney",
                  "image-gen", "imagegen"};
    assert forall hint :: hint in IMAGE_HINTS <==> hint in hints;
    forall hint ensures OccursIn(hint, Lower(name)) <==> exists a, b :: Lower(name) == a + hint + b {
      OccursInIff(hint, Lower(name));
    }
  }

  // What one run does to a row: an active row of a known provider that is not
  // premium is tested; a failure counts, and the third in a row deactivates a
  // row already marked missing; an active row that its provider's listing lacks
  // is marked.
  lemma {:induction false} OneRunInPlainTerms(providers: seq<string>, out: Outside, m: Model)
    ensures var r, known, listed := Cleaned(providers, out, m), m.providerId in providers, out.listing(m.providerId);
            var reply := if IsImageModel(m.internalModel) then Passed else out.reply(m.id);
            && r == m.(isActive := r.isActive, meta := r.meta)
            && (if m.isActive && known && !m.meta.premium then
                  && r.meta.failCount == (if reply == Failed then m.meta.failCount + 1 else 0)
                  && (r.meta.premium <==> reply == Premium)
                  && (r.isActive <==> !(reply == Failed && m.meta.failCount + 1 >= 3 && m.meta.missing))
                else
                  && r.meta.failCount == m.meta.failCount && r.meta.premium == m.meta.premium
                  && r.isActive == m.isActive)
            && (r.meta.missing <==>
                m.meta.missing || (r.isActive && known && listed.Some? && m.internalModel !in listed.value))
  {
    MarkedOnce(providers, out, Tested(providers, out, m));
    hide IsImageModel, MarkedByAll;
  }

  // A model that every listing obtained of its provider contains stays active,
  // whatever its tests give.
  lemma {:induction false} ListedModelStays(m: Model, runs: seq<CleanupRun>)
    requires m.isActive && m.meta == Meta(0, false, false)
    requires forall run :: run in runs && run.out.listing(m.providerId).Some? ==>
               m.internalModel in run.out.listing(m.providerId).value
    ensures AfterRuns(m, runs).isActive && !AfterRuns(m, runs).meta.missing
  {
    if runs != [] {
      var before, last := runs[..|runs| - 1], runs[|runs| - 1];
      ListedModelStays(m, before);
      RunsFollowHistory(m, before);
      assert last in runs;
      hide Cleaned;
      OneRunInPlainTerms(last.providers, last.out, AfterRuns(m, before));
    }
  }

  // The count of a run is the number of rows it deactivates.
  lemma {:induction false} DeactivationsAreCounted(before: seq<Model>, after: seq<Model>)
    requires |before| == |after|
    ensures Deactivations(before, after) == |set i | 0 <= i < |before| && before[i].isActive && !after[i].isActive|
  {
    if before != [] {
      var n := |before| - 1;
      DeactivationsAreCounted(before[..n], after[..n]);
      var fewer := set i | 0 <= i < n && before[..n][i].isActive && !after[..n][i].isActive;
      var all := set i | 0 <= i < |before| && before[i].isActive && !after[i].isActive;
      assert all == fewer + if before[n].isActive && !after[n].isActive then {n} else {};
    }
  }
}

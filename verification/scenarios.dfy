/**
 * The cases of tests/test_action.py, replayed against the model: each method
 * builds a state, runs one handler and asserts what the corresponding case
 * expects of the fields, the collaborator calls and the return value.
 */
module Scenarios {
  import opened Wrappers
  import opened TryChoosers
  import opened Action
  import Strings
  import Numerals
  import ShaMatch
  import ApprovalProperties

  /** None of the markers starts this title. */
  lemma PlainTitle()
    ensures !IsWip("My pull request")
  {
    var up := Strings.Upper("My pull request");
    assert up[0] == 'M';
    forall i | 0 <= i < |WipMarkers| ensures !Strings.IsPrefix(WipMarkers[i], up) {
      assert WipMarkers[i][0] != 'M';
    }
  }

  lemma WipTitle()
    ensures IsWip("WIP work in progress")
  {
    var up := Strings.Upper("WIP work in progress");
    assert up[0] == 'W' && up[1] == 'I' && up[2] == 'P';
    assert up[..3] == "WIP";
    assert Strings.IsPrefix(WipMarkers[0], up);
  }

  /** The markers are matched whatever the case of the title. */
  lemma LowerCaseWipTitle()
    ensures IsWip("wip: tidy up")
  {
    var up := Strings.Upper("wip: tidy up");
    assert up[0] == 'W' && up[1] == 'I' && up[2] == 'P';
    assert up[..3] == "WIP";
    assert Strings.IsPrefix(WipMarkers[0], up);
  }

  method SetTreeclosedScenario() {
    Numerals.ParseIntExamples();
    var s := new PullState(1, "abcd123", "", "label");
    s.SetTreeclosed("123");
    assert s.effects == [ChangeTreeclosed(123), Save];
  }

  method DelegateToScenario() {
    var s := new PullState(1, "abcd123", "", "label");
    s.DelegateTo(true, "user");
    assert s.delegate == "user";
    assert s.effects == [Save, AddComment(CanApprove("user"))];
  }

  method HelloOrPingScenario() {
    var s := new PullState(1, "abcd123", "", "label");
    s.HelloOrPing();
    assert s.effects == [AddComment(Awake)];
  }

  /** `rollup` then `rollup-`: the flag is back to false after two saves and no comment. */
  method RollupRoundTrip(s: PullState)
    modifies s
    ensures s.Fields() == old(s.Fields()).(rollup := false)
    ensures s.effects == old(s.effects) + [Save, Save]
  {
    s.Rollup("rollup");
    assert s.rollup;
    s.Rollup("rollup-");
  }

  /** `delegate+` then `delegate-`: the delegation is withdrawn, after two saves. */
  method DelegateRoundTrip(s: PullState, user: string, realtime: bool)
    modifies s
    ensures s.Fields() == old(s.Fields()).(delegate := "")
    ensures s.effects == old(s.effects) + [Save]
                         + (if realtime then [AddComment(CanApprove(user))] else []) + [Save]
  {
    s.DelegatePositive(user, realtime);
    assert s.delegate == user;
    s.DelegateNegative();
  }

  /** `try` then `try-`: no try is pending, and the one TRY label came from the first command. */
  method TryRoundTrip(s: PullState, realtime: bool)
    modifies s
    ensures s.Fields() == old(s.Fields()).(tryBuild := false, tryChoose := None)
    ensures s.effects == old(s.effects) + [InitBuildRes([]), Save, ChangeLabels(TRY), InitBuildRes([]), Save]
  {
    s.Try("try", realtime, None, None);
    s.Try("try-", realtime, None, None);
  }

  /** `retry` after `try` relabels the pull request for a try build. */
  method TryThenRetry(s: PullState, realtime: bool)
    modifies s
    ensures s.tryBuild
    ensures s.effects == old(s.effects) + [InitBuildRes([]), Save, ChangeLabels(TRY),
                                           SetStatus(""), ChangeLabels(TRY)]
  {
    s.Try("try", realtime, None, None);
    s.Retry();
  }

  /**
   * `retry` after an `r+` that names the head relabels the pull request as
   * approved: the approval dropped the pending try.
   */
  method ApproveThenRetry(s: PullState, approver: string, myUsername: string, realtime: bool)
    requires approver != "me" && !IsWip(s.title) && |s.headSha| >= ShaMatch.MinShaLen
    modifies s
    ensures s.Fields() == old(s.Fields()).(approvedBy := approver, tryBuild := false, tryChoose := None)
    ensures s.effects == old(s.effects) + [SetStatus(""), Save, SetStatus(""), ChangeLabels(APPROVED)]
  {
    ghost var f := s.Fields();
    ShaMatch.ShaCmpSelf(s.headSha);
    ApprovalProperties.ReviewLetThrough(f, realtime, approver, myUsername, myUsername, s.headSha, false, 0);
    var ok := s.ReviewApproved(realtime, approver, myUsername, myUsername, s.headSha, map[], 0);
    assert !s.tryBuild;
    s.Retry();
  }

  method TryPositiveScenario() {
    var s := new PullState(1, "abcd123", "", "label");
    s.Try("try", false, None, None);
    assert s.tryBuild;
    assert s.effects == [InitBuildRes([]), Save, ChangeLabels(TRY)];
  }

  method TryNegativeScenario() {
    var s := new PullState(1, "abcd123", "", "label");
    s.Try("try-", false, None, None);
    assert !s.tryBuild;
    assert s.effects == [InitBuildRes([]), Save];
  }

  method TryChooserNoSetupScenario() {
    ChooseTryExamples();
    var s := new PullState(1, "abcd123", "", "label");
    s.Try("try", true, None, Some("foo"));
    assert s.tryBuild;
    assert s.effects == [AddComment(NoChoosers),
                         InitBuildRes([]), Save, ChangeLabels(TRY)];
  }

  method TryChooserNotFoundScenario() {
    ChooseTryExamples();
    var s := new PullState(1, "abcd123", "", "label");
    s.Try("try", true, Some(ExampleChoosers), Some("foo"));
    assert s.tryChoose == None && !s.tryBuild;
    assert s.effects == [AddComment(UnknownChooser("foo", ["mac", "wpt"]))];
  }

  method TryChooserFoundScenario() {
    ChooseTryExamples();
    var s := new PullState(1, "abcd123", "", "label");
    s.Try("try", true, Some(ExampleChoosers), Some("mac"));
    assert s.tryBuild && s.tryChoose == Some("mac");
    assert s.effects == [InitBuildRes([]), Save, ChangeLabels(TRY)];
  }

  /** `try-` naming a configured chooser records no chooser: there is no try to run it. */
  method TryNegativeChooserScenario() {
    ChooseTryExamples();
    var s := new PullState(1, "abcd123", "", "label");
    s.Try("try-", true, Some(ExampleChoosers), Some("mac"));
    assert !s.tryBuild && s.tryChoose == None;
    assert s.effects == [InitBuildRes([]), Save];
  }

  method CleanScenario() {
    var s := new PullState(1, "abcd123", "", "label");
    s.mergeSha := "f259660";
    s.Clean();
    assert s.mergeSha == "";
    assert s.effects == [InitBuildRes([]), Save];
  }

  method RetryTryScenario() {
    var s := new PullState(1, "abcd123", "", "label");
    s.tryBuild := true;
    s.Retry();
    assert s.effects == [SetStatus(""), ChangeLabels(TRY)];
  }

  method RetryApprovedScenario() {
    var s := new PullState(1, "abcd123", "", "label");
    s.Retry();
    assert s.effects == [SetStatus(""), ChangeLabels(APPROVED)];
  }

  method TreeclosedNegativeScenario() {
    var s := new PullState(1, "abcd123", "", "label");
    s.TreeclosedNegative();
    assert s.effects == [ChangeTreeclosed(-1), Save];
  }

  method DelegateNegativeScenario() {
    var s := new PullState(1, "abcd123", "", "label");
    s.delegate := "delegate";
    s.DelegateNegative();
    assert s.delegate == "" && s.effects == [Save];
  }

  method DelegatePositiveScenarios() {
    var s := new PullState(1, "abcd123", "", "label");
    s.DelegatePositive("delegate", true);
    assert s.delegate == "delegate";
    assert s.effects == [Save, AddComment(CanApprove("delegate"))];

    var t := new PullState(1, "abcd123", "", "label");
    t.DelegatePositive("delegate", false);
    assert t.delegate == "delegate" && t.effects == [Save];
  }

  method SetPriorityWithinMaxScenario() {
    Numerals.ParseIntExamples();
    assert Numerals.ParseInt("1") == Some(1) by {
      assert Numerals.DigitsValue("1") == 1 by { assert "1"[..0] == ""; }
    }
    var s := new PullState(1, "abcd123", "", "label");
    var ok := s.SetPriority(true, "1", 3);
    assert ok && s.priority == 1 && s.effects == [Save];
  }

  /** The text of the refusal posted above the maximum priority of 3. */
  lemma PriorityRefusalText()
    ensures Text(PriorityTooHigh(3)) == ":stop_sign: Priority higher than 3 is ignored."
  {
    assert Numerals.ShowInt(3) == "3";
  }

  method SetPriorityAboveMaxScenario() {
    Numerals.ParseIntExamples();
    var s := new PullState(1, "abcd123", "", "label");
    s.priority := 2;
    var ok := s.SetPriority(true, "5", 3);
    assert !ok && s.priority == 2;
    assert s.effects == [AddComment(PriorityTooHigh(3))];
  }

  method ReviewApproverMeScenario() {
    var s := new PullState(1, "abcd123", "", "label");
    var ok := s.ReviewApproved(true, "me", "user", "user", "", map[], 0);
    assert !ok && s.effects == [];
  }

  method ReviewWipRealtimeScenario() {
    WipTitle();
    var s := new PullState(1, "abcd123", "", "label");
    s.title := "WIP work in progress";
    var ok := s.ReviewApproved(true, "user", "user", "user", "", map[], 0);
    assert !ok;
    assert s.effects == [AddComment(WorkInProgress)];
  }

  method ReviewWipNotRealtimeScenario() {
    WipTitle();
    var s := new PullState(1, "abcd123", "", "label");
    s.title := "WIP work in progress";
    var ok := s.ReviewApproved(false, "user", "user", "user", "", map[], 0);
    assert !ok && s.effects == [];
  }

  method ReviewEqualUsernamesScenario() {
    var s := new PullState(1, "abcd123", "", "label");
    s.title := "My pull request";
    ghost var f := s.Fields();
    PlainTitle();
    ShaMatch.ShaCmpSelf("abcd123");
    ApprovalProperties.ReviewLetThrough(f, true, "user", "user", "user", "abcd123", false, 0);
    var ok := s.ReviewApproved(true, "user", "user", "user", "abcd123", map[], 0);
    assert ok && s.approvedBy == "user" && !s.tryBuild;
    assert s.effects == [SetStatus(""), Save];
  }

  /** The single, pending, state of repository "label", already approved by someone. */
  method PendingApprovedState(headSha: string) returns (s: PullState, states: StatesIndex)
    ensures fresh(s)
    ensures s.Fields() == PullFields(1, "My pull request", headSha, "", "user0", "pending",
                                     false, None, false, "", 0, "label")
    ensures s.effects == [] && states == map["label" := [s]] && s.BeingTested(states)
  {
    s := new PullState(1, headSha, "pending", "label");
    s.title := "My pull request";
    s.approvedBy := "user0";
    states := map["label" := [s]];
    assert states["label"][0] == s;
  }

  /**
   * The mock state of the test cases below has a truthy `approved_by`; here
   * it is set explicitly, so the "already approved" notice comes first.
   */
  method ReviewDifferentUsernamesScenario() {
    var s, states := PendingApprovedState("abcd123");
    ghost var f := s.Fields();
    PlainTitle();
    ShaMatch.ShaCmpSelf("abcd123");
    ApprovalProperties.ReviewLetThrough(f, true, "user1", "user1", "user2", "abcd123", true, 0);
    var ok := s.ReviewApproved(true, "user1", "user1", "user2", "abcd123", states, 0);
    assert ok && s.approvedBy == "user1" && !s.tryBuild;
    assert s.effects == [AddComment(AlreadyApprovedNote), SetStatus(""), Save];
  }

  method ReviewMismatchedShaScenario() {
    var s, states := PendingApprovedState("sdf456");
    ghost var f := s.Fields();
    PlainTitle();
    assert !ShaMatch.ShaCmp("abcd123", "sdf456");
    ApprovalProperties.ReviewLetThrough(f, true, "user1", "user1", "user2", "abcd123", true, 0);
    var ok := s.ReviewApproved(true, "user1", "user1", "user2", "abcd123", states, 0);
    assert ok && s.approvedBy == "user0";
    assert s.effects == [AddComment(AlreadyApprovedNote), AddComment(InvalidSha("abcd123", "sdf456"))];
  }

  method ReviewSameUsernamesMismatchedShaScenario() {
    var s, states := PendingApprovedState("sdf456");
    ghost var f := s.Fields();
    PlainTitle();
    assert !ShaMatch.ShaCmp("abcd123", "sdf456");
    ApprovalProperties.ReviewLetThrough(f, true, "user", "user", "user", "abcd123", true, 0);
    var ok := s.ReviewApproved(true, "user", "user", "user", "abcd123", states, 0);
    assert ok && s.effects == [];
  }

  method ReviewBlankShaOpenTreeScenario() {
    var s, states := PendingApprovedState("sdf456");
    ghost var f := s.Fields();
    PlainTitle();
    ShaMatch.BlankShaNeverMatches("sdf456");
    ApprovalProperties.ReviewLetThrough(f, true, "user1", "user1", "user2", "", true, 0);
    var ok := s.ReviewApproved(true, "user1", "user1", "user2", "", states, 0);
    assert ok;
    assert s.effects == Notice(true) + ShaAnswer(f, true, "user1", "user1", "user2", "", 0);
    assert s.effects == [AddComment(AlreadyApprovedNote),
                         AddComment(ApprovalPinned("sdf456", "user1", "user2")),
                         ChangeLabels(APPROVED)];
  }

  lemma ClosedTreeAnswer(f: PullFields)
    requires f.headSha == "sdf456"
    ensures Notice(true) + ShaAnswer(f, true, "user1", "user1", "user2", "", 1)
            == [AddComment(AlreadyApprovedNote), AddComment(ApprovalPinned("sdf456", "user1", "user2")),
                AddComment(TreeClosed(1)), ChangeLabels(APPROVED)]
  {
    ShaMatch.BlankShaNeverMatches("sdf456");
  }

  method ReviewBlankShaClosedTreeScenario() {
    var s, states := PendingApprovedState("sdf456");
    ghost var f := s.Fields();
    PlainTitle();
    ApprovalProperties.ReviewLetThrough(f, true, "user1", "user1", "user2", "", true, 1);
    var ok := s.ReviewApproved(true, "user1", "user1", "user2", "", states, 1);
    assert ok;
    assert s.effects == Notice(true) + ShaAnswer(f, true, "user1", "user1", "user2", "", 1);
    ClosedTreeAnswer(f);
    assert s.effects == [AddComment(AlreadyApprovedNote),
                         AddComment(ApprovalPinned("sdf456", "user1", "user2")),
                         AddComment(TreeClosed(1)),
                         ChangeLabels(APPROVED)];
  }

  method ReviewRejectedScenario() {
    var s := new PullState(1, "abcd123", "", "label");
    s.approvedBy := "user";
    s.ReviewRejected(true);
    assert s.approvedBy == "" && s.effects == [Save, ChangeLabels(REJECTED)];
  }
}

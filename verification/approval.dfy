/**
 * What `review_approved` promises, stated over its functional description
 * (Action.ReviewApprovedOutcome), together with projections of the effect log
 * onto the saves, comments and label events that the handlers make.
 */
module ApprovalProperties {
  import opened Wrappers
  import opened Strings
  import opened ShaMatch
  import opened Action

  /** The label events of a log, in order. */
  function Labels(log: seq<Effect>): seq<LabelEvent> {
    if log == [] then []
    else (if log[0].ChangeLabels? then [log[0].event] else []) + Labels(log[1..])
  }

  /** The comments of a log, in order. */
  function Comments(log: seq<Effect>): seq<Comment> {
    if log == [] then []
    else (if log[0].AddComment? then [log[0].comment] else []) + Comments(log[1..])
  }

  /** How many times a log saves the state. */
  function Saves(log: seq<Effect>): nat {
    if log == [] then 0 else (if log[0] == Save then 1 else 0) + Saves(log[1..])
  }

  /** The projections of a one-call log. */
  lemma ProjectionsSingle(e: Effect)
    ensures Labels([e]) == if e.ChangeLabels? then [e.event] else []
    ensures Comments([e]) == if e.AddComment? then [e.comment] else []
    ensures Saves([e]) == if e == Save then 1 else 0
  {
    assert [e][1..] == [];
  }

  lemma {:induction false} LabelsAppend(a: seq<Effect>, b: seq<Effect>)
    ensures Labels(a + b) == Labels(a) + Labels(b)
  {
    if a == [] {
      assert a + b == b;
    } else {
      assert (a + b)[0] == a[0] && (a + b)[1..] == a[1..] + b;
      LabelsAppend(a[1..], b);
    }
  }

  lemma {:induction false} CommentsAppend(a: seq<Effect>, b: seq<Effect>)
    ensures Comments(a + b) == Comments(a) + Comments(b)
  {
    if a == [] {
      assert a + b == b;
    } else {
      assert (a + b)[0] == a[0] && (a + b)[1..] == a[1..] + b;
      CommentsAppend(a[1..], b);
    }
  }

  lemma {:induction false} SavesAppend(a: seq<Effect>, b: seq<Effect>)
    ensures Saves(a + b) == Saves(a) + Saves(b)
  {
    if a == [] {
      assert a + b == b;
    } else {
      assert (a + b)[0] == a[0] && (a + b)[1..] == a[1..] + b;
      SavesAppend(a[1..], b);
    }
  }

  /** The three projections distribute over the concatenation of logs. */
  lemma ProjectionsAppend(a: seq<Effect>, b: seq<Effect>)
    ensures Labels(a + b) == Labels(a) + Labels(b)
    ensures Comments(a + b) == Comments(a) + Comments(b)
    ensures Saves(a + b) == Saves(a) + Saves(b)
  {
    LabelsAppend(a, b);
    CommentsAppend(a, b);
    SavesAppend(a, b);
  }

  /** An approval is refused exactly for the approver `me` and for a work-in-progress title. */
  lemma ReviewRefusals(f: PullFields, realtime: bool, approver: string, username: string,
                       myUsername: string, sha: string, beingTested: bool, blockedBy: nat)
    ensures var o := ReviewApprovedOutcome(f, realtime, approver, username, myUsername, sha, beingTested, blockedBy);
      && (o.accepted <==> approver != "me" && !IsWip(f.title))
      && (!o.accepted ==> o.after == f)
      && (approver == "me" ==> o.emitted == [])
      && (approver != "me" && IsWip(f.title) ==>
            o.emitted == if realtime then [AddComment(WorkInProgress)] else [])
  {
  }

  lemma NoticeProjections(alreadyApproved: bool)
    ensures Labels(Notice(alreadyApproved)) == [] && Saves(Notice(alreadyApproved)) == 0
    ensures Comments(Notice(alreadyApproved)) == if alreadyApproved then [AlreadyApprovedNote] else []
  {
    if alreadyApproved {
      ProjectionsSingle(AddComment(AlreadyApprovedNote));
    }
  }

  /** The projections of every answer to the supplied SHA. */
  lemma AnswerProjections(f: PullFields, realtime: bool, approver: string,
      username: string, myUsername: string, sha: string, blockedBy: nat)
    ensures var answer := ShaAnswer(f, realtime, approver, username, myUsername, sha, blockedBy);
      var live := realtime && username != myUsername;
      && Saves(answer) == (if ShaCmp(sha, f.headSha) then 1 else 0)
      && Labels(answer) == (if !ShaCmp(sha, f.headSha) && live && sha == "" then [APPROVED] else [])
      && Comments(answer) == (
           if ShaCmp(sha, f.headSha) || !live then []
           else if sha != "" then [InvalidSha(sha, f.headSha)]
           else [ApprovalPinned(f.headSha, approver, myUsername)]
                + (if blockedBy > 0 then [TreeClosed(blockedBy)] else []))
  {
    if ShaCmp(sha, f.headSha) {
      MatchingAnswerProjections();
    } else if realtime && username != myUsername {
      if sha != "" {
        ProjectionsSingle(AddComment(InvalidSha(sha, f.headSha)));
      } else {
        BlankAnswerProjections(ApprovalPinned(f.headSha, approver, myUsername), blockedBy);
      }
    }
  }

  lemma MatchingAnswerProjections()
    ensures Saves([SetStatus(""), Save]) == 1
    ensures Labels([SetStatus(""), Save]) == [] && Comments([SetStatus(""), Save]) == []
  {
    ProjectionsSingle(SetStatus(""));
    ProjectionsSingle(Save);
    ProjectionsAppend([SetStatus("")], [Save]);
    assert [SetStatus("")] + [Save] == [SetStatus(""), Save];
  }

  lemma BlankAnswerProjections(confirmation: Comment, blockedBy: nat)
    ensures var closed := if blockedBy > 0 then [AddComment(TreeClosed(blockedBy))] else [];
      var answer := [AddComment(confirmation)] + closed + [ChangeLabels(APPROVED)];
      && Saves(answer) == 0 && Labels(answer) == [APPROVED]
      && Comments(answer) == [confirmation] + (if blockedBy > 0 then [TreeClosed(blockedBy)] else [])
  {
    var closed := if blockedBy > 0 then [AddComment(TreeClosed(blockedBy))] else [];
    ProjectionsSingle(AddComment(confirmation));
    ProjectionsSingle(ChangeLabels(APPROVED));
    if blockedBy > 0 {
      ProjectionsSingle(AddComment(TreeClosed(blockedBy)));
    }
    ProjectionsAppend([AddComment(confirmation)], closed);
    ProjectionsAppend([AddComment(confirmation)] + closed, [ChangeLabels(APPROVED)]);
  }

  /**
   * Once let through, the approval fields change only when the supplied SHA
   * names the head, and then exactly: the approver is recorded, the try is
   * dropped, the status is reset, and the state is saved once. No other path
   * saves.
   */
  lemma ApprovalRecordedOnMatchingSha(f: PullFields, realtime: bool, approver: string,
      username: string, myUsername: string, sha: string, alreadyApproved: bool, blockedBy: nat)
    ensures var o := ApprovalOutcome(f, realtime, approver, username, myUsername, sha, alreadyApproved, blockedBy);
      && o.accepted
      && o.after == (if ShaCmp(sha, f.headSha) then f.(approvedBy := approver, tryBuild := false, tryChoose := None) else f)
      && Saves(o.emitted) == (if ShaCmp(sha, f.headSha) then 1 else 0)
      && (ShaCmp(sha, f.headSha) ==> o.emitted == Notice(alreadyApproved) + [SetStatus(""), Save])
  {
    var answer := ShaAnswer(f, realtime, approver, username, myUsername, sha, blockedBy);
    NoticeProjections(alreadyApproved);
    AnswerProjections(f, realtime, approver, username, myUsername, sha, blockedBy);
    ProjectionsAppend(Notice(alreadyApproved), answer);
  }

  /**
   * A command yields at most one label event: APPROVED, and only for an
   * `r+` without a SHA issued live by someone other than the bot.
   */
  lemma ApprovalLabels(f: PullFields, realtime: bool, approver: string,
      username: string, myUsername: string, sha: string, alreadyApproved: bool, blockedBy: nat)
    ensures var o := ApprovalOutcome(f, realtime, approver, username, myUsername, sha, alreadyApproved, blockedBy);
      Labels(o.emitted) == if !ShaCmp(sha, f.headSha) && realtime && username != myUsername && sha == ""
                           then [APPROVED] else []
  {
    NoticeProjections(alreadyApproved);
    AnswerProjections(f, realtime, approver, username, myUsername, sha, blockedBy);
    ProjectionsAppend(Notice(alreadyApproved), ShaAnswer(f, realtime, approver, username, myUsername, sha, blockedBy));
  }

  /**
   * The comments, in order: the "already approved" notice if due, then the
   * answer to the SHA when the command is live and the SHA does not match.
   */
  lemma ApprovalComments(f: PullFields, realtime: bool, approver: string,
      username: string, myUsername: string, sha: string, alreadyApproved: bool, blockedBy: nat)
    ensures var o := ApprovalOutcome(f, realtime, approver, username, myUsername, sha, alreadyApproved, blockedBy);
      Comments(o.emitted) == (if alreadyApproved then [AlreadyApprovedNote] else []) + (
        if ShaCmp(sha, f.headSha) || !realtime || username == myUsername then []
        else if sha != "" then [InvalidSha(sha, f.headSha)]
        else [ApprovalPinned(f.headSha, approver, myUsername)]
             + (if blockedBy > 0 then [TreeClosed(blockedBy)] else []))
  {
    NoticeProjections(alreadyApproved);
    AnswerProjections(f, realtime, approver, username, myUsername, sha, blockedBy);
    ProjectionsAppend(Notice(alreadyApproved), ShaAnswer(f, realtime, approver, username, myUsername, sha, blockedBy));
  }

  /** Past the two refusals, `review_approved` is ApprovalOutcome. */
  lemma ReviewLetThrough(f: PullFields, realtime: bool, approver: string, username: string,
                         myUsername: string, sha: string, beingTested: bool, blockedBy: nat)
    requires approver != "me" && !IsWip(f.title)
    ensures ReviewApprovedOutcome(f, realtime, approver, username, myUsername, sha, beingTested, blockedBy)
            == ApprovalOutcome(f, realtime, approver, username, myUsername, sha,
                               f.approvedBy != "" && realtime && username != myUsername && beingTested, blockedBy)
  {
  }

  /**
   * The comments of an accepted `r+` start with the "already approved" notice
   * exactly when the state is approved, the command is live and not the
   * bot's own, and the state is the one its repository is testing.
   */
  lemma ReviewNotice(f: PullFields, realtime: bool, approver: string, username: string,
                     myUsername: string, sha: string, beingTested: bool, blockedBy: nat)
    ensures var o := ReviewApprovedOutcome(f, realtime, approver, username, myUsername, sha, beingTested, blockedBy);
      o.accepted ==>
        ((|Comments(o.emitted)| > 0 && Comments(o.emitted)[0] == AlreadyApprovedNote)
         <==> f.approvedBy != "" && realtime && username != myUsername && beingTested)
  {
    if approver != "me" && !IsWip(f.title) {
      var notice := f.approvedBy != "" && realtime && username != myUsername && beingTested;
      ReviewLetThrough(f, realtime, approver, username, myUsername, sha, beingTested, blockedBy);
      ApprovalComments(f, realtime, approver, username, myUsername, sha, notice, blockedBy);
    }
  }

  /**
   * Replaying the trailer of the `r+` confirmation, `@<myUsername> r=<approver>
   * <head>`, as a command of the bot itself records the approval of that head,
   * silently, whatever the tree and the test queue say.
   */
  lemma TrailerReplayApproves(f: PullFields, realtime: bool, approver: string, username: string,
      myUsername: string, beingTested: bool, blockedBy: nat, replayRealtime: bool,
      replayBeingTested: bool, replayBlockedBy: nat)
    requires approver != "me" && !IsWip(f.title) && |f.headSha| >= MinShaLen
    requires realtime && username != myUsername
    ensures var first := ReviewApprovedOutcome(f, realtime, approver, username, myUsername, "",
                                               beingTested, blockedBy);
      var replay := ReviewApprovedOutcome(first.after, replayRealtime, approver, myUsername, myUsername,
                                          f.headSha, replayBeingTested, replayBlockedBy);
      && first.accepted && first.after == f
      && AddComment(ApprovalPinned(f.headSha, approver, myUsername)) in first.emitted
      && replay.accepted
      && replay.after == f.(approvedBy := approver, tryBuild := false, tryChoose := None)
      && replay.emitted == [SetStatus(""), Save]
  {
    ShaCmpSelf(f.headSha);
    BlankShaNeverMatches(f.headSha);
    var noticed := f.approvedBy != "" && beingTested;
    ReviewLetThrough(f, realtime, approver, username, myUsername, "", beingTested, blockedBy);
    ReviewLetThrough(f, replayRealtime, approver, myUsername, myUsername, f.headSha, replayBeingTested, replayBlockedBy);
    var emitted := Notice(noticed) + ShaAnswer(f, realtime, approver, username, myUsername, "", blockedBy);
    assert emitted[|Notice(noticed)|] == AddComment(ApprovalPinned(f.headSha, approver, myUsername));
  }
}

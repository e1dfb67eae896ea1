/**
 * The command handlers of homu's `action` module: each handler reads and updates
 * one pull request's state and calls that state's collaborator operations
 * (`save`, `add_comment`, `change_labels`, `set_status`, `init_build_res`,
 * `change_treeclosed`). The collaborators are not modelled; every call to one
 * is appended, in order, to the state's effect log.
 */
module Action {
  import opened Wrappers
  import opened Strings
  import opened Numerals
  import opened ShaMatch
  import opened TryChoosers

  /** The label transitions the handlers ask the label synchroniser for. */
  datatype LabelEvent = TRY | APPROVED | REJECTED

  /** One call of a collaborator operation on the pull request state. */
  datatype Effect =
    | Save
    | AddComment(comment: Comment)
    | ChangeLabels(event: LabelEvent)
    | SetStatus(status: string)
    | InitBuildRes(builders: seq<string>)
    | ChangeTreeclosed(threshold: int)

  /** The fields of a pull request state that the handlers read or write. */
  datatype PullFields = PullFields(
    num: int,
    title: string,
    headSha: string,
    mergeSha: string,
    approvedBy: string,
    status: string,
    tryBuild: bool,
    tryChoose: Option<string>,
    rollup: bool,
    delegate: string,
    priority: int,
    repoLabel: string)

  // ---- Comments ----

  /** The comments the handlers post, by kind; `Text` renders each as posted. */
  datatype Comment =
    | Awake
    | CanApprove(user: string)
    | PriorityTooHigh(maxPriority: int)
    | NoChoosers
    | UnknownChooser(requested: string, available: seq<string>)
    | WorkInProgress
    | AlreadyApprovedNote
    | InvalidSha(sha: string, headSha: string)
    | ApprovalPinned(headSha: string, approver: string, myUsername: string)
    | TreeClosed(priority: int)

  /**
   * The text of a comment. The hidden trailer of `ApprovalPinned` is the command
   * `@<myUsername> r=<approver> <headSha>`, addressed to the bot itself, that
   * pins the approval to the current head.
   */
  function Text(c: Comment): string {
    match c
    case Awake => ":sleepy: I'm awake I'm awake"
    case CanApprove(user) => ":v: @" + user + " can now approve this pull request"
    case PriorityTooHigh(maxPriority) =>
      ":stop_sign: Priority higher than " + ShowInt(maxPriority) + " is ignored."
    case NoChoosers => ":slightly_frowning_face: This repo does not have try choosers set up"
    case UnknownChooser(requested, available) =>
      ":slightly_frowning_face: There is no try chooser " + requested
        + " for this repo, try one of: " + Join(available, ", ")
    case WorkInProgress => ":clipboard: Looks like this PR is still in progress, ignoring approval"
    case AlreadyApprovedNote =>
      ":bulb: This pull request was already approved, no need to approve it again.\n\n"
      + "- This pull request is currently being tested. If there's no response from the continuous "
      + "integration service, you may use `retry` to trigger a build again."
    case InvalidSha(sha, headSha) =>
      ":scream_cat: `" + sha + "` is not a valid commit SHA. Please try again with `" + headSha + "`."
    case ApprovalPinned(headSha, approver, myUsername) =>
      ":pushpin: Commit " + headSha + " has been approved by `" + approver + "`\n\n"
      + "<!-- @" + myUsername + " r=" + approver + " " + headSha + " -->"
    case TreeClosed(priority) =>
      ":evergreen_tree: The tree is currently closed for pull requests below priority "
      + ShowInt(priority) + ", this pull request will be tested once the tree is reopened"
  }

  // ---- Approval ----

  /** Title prefixes (compared upper-cased) that mark a pull request as still in progress. */
  const WipMarkers: seq<string> := ["WIP", "TODO", "[WIP]", "[TODO]", "[DO NOT MERGE]"]

  predicate IsWip(title: string) {
    StartsWithAny(Upper(title), WipMarkers)
  }

  /** Upper-casing the title first does not change whether it is work in progress. */
  lemma WipIgnoresCase(title: string)
    ensures IsWip(Upper(title)) <==> IsWip(title)
  {
    UpperIdempotent(title);
  }

  /**
   * A title is work in progress exactly when it starts with one of the
   * markers, in any mix of letter cases.
   */
  lemma WipMeansMarkerIgnoringCase(title: string)
    ensures IsWip(title) <==>
      exists k :: 0 <= k < |WipMarkers| && |WipMarkers[k]| <= |title|
                  && Upper(title[..|WipMarkers[k]|]) == WipMarkers[k]
  {
    forall n | 0 <= n <= |title|
      ensures Upper(title)[..n] == Upper(title[..n])
    {
    }
  }

  /** What one handler call decides: its return value, the new fields and the calls it makes. */
  datatype Outcome = Outcome(accepted: bool, after: PullFields, emitted: seq<Effect>)

  /**
   * `review_approved` as a function of the state before the call. `beingTested`
   * says whether this very state is the first pending one of its repository;
   * `blockedBy` is what `blocked_by_closed_tree()` answers (0: not blocked).
   */
  function ReviewApprovedOutcome(f: PullFields, realtime: bool, approver: string, username: string,
                                 myUsername: string, sha: string, beingTested: bool, blockedBy: nat): Outcome
  {
    if approver == "me" then Outcome(false, f, [])
    else if IsWip(f.title) then Outcome(false, f, if realtime then [AddComment(WorkInProgress)] else [])
    else
      var alreadyApproved := f.approvedBy != "" && realtime && username != myUsername && beingTested;
      ApprovalOutcome(f, realtime, approver, username, myUsername, sha, alreadyApproved, blockedBy)
  }

  /** The "already approved" notice, as the calls it makes. */
  function Notice(alreadyApproved: bool): seq<Effect> {
    if alreadyApproved then [AddComment(AlreadyApprovedNote)] else []
  }

  /**
   * What `review_approved` does about the supplied SHA: a matching SHA resets
   * the status and saves; otherwise, only for a live command that is not the
   * bot's own, a wrong SHA is answered with the head to use, and a blank one
   * with the confirmation (plus the closed-tree notice) and the APPROVED label.
   */
  function ShaAnswer(f: PullFields, realtime: bool, approver: string, username: string,
                     myUsername: string, sha: string, blockedBy: nat): seq<Effect>
  {
    if ShaCmp(sha, f.headSha) then [SetStatus(""), Save]
    else if realtime && username != myUsername then
      if sha != "" then [AddComment(InvalidSha(sha, f.headSha))]
      else [AddComment(ApprovalPinned(f.headSha, approver, myUsername))]
           + (if blockedBy > 0 then [AddComment(TreeClosed(blockedBy))] else [])
           + [ChangeLabels(APPROVED)]
    else []
  }

  /**
   * `review_approved` once the approver and the title have been let through;
   * `alreadyApproved` says whether the "already approved" notice comes first.
   */
  function ApprovalOutcome(f: PullFields, realtime: bool, approver: string, username: string,
                           myUsername: string, sha: string, alreadyApproved: bool, blockedBy: nat): Outcome
  {
    Outcome(true,
            if ShaCmp(sha, f.headSha) then f.(approvedBy := approver, tryBuild := false, tryChoose := None) else f,
            Notice(alreadyApproved) + ShaAnswer(f, realtime, approver, username, myUsername, sha, blockedBy))
  }

  /** A try chooser is recorded only while a try build is asked for. */
  predicate ChooserOnlyWhileTrying(f: PullFields) {
    f.tryChoose.Some? ==> f.tryBuild
  }

  /**
   * `review_approved` keeps that rule: an approval of the head drops the try
   * and its chooser together, and every other path changes neither.
   */
  lemma ReviewKeepsChooserRule(f: PullFields, realtime: bool, approver: string, username: string,
                               myUsername: string, sha: string, beingTested: bool, blockedBy: nat)
    ensures var after := ReviewApprovedOutcome(f, realtime, approver, username, myUsername, sha,
                                               beingTested, blockedBy).after;
      && (ChooserOnlyWhileTrying(f) ==> ChooserOnlyWhileTrying(after))
      && (after != f ==> after.tryChoose == None && !after.tryBuild)
  {
  }

  /** `o` is the first state in `candidates` whose status is pending. */
  predicate IsFirstPending(candidates: seq<PullState>, o: PullState)
    reads set i | 0 <= i < |candidates| :: candidates[i]
  {
    exists i :: 0 <= i < |candidates| && candidates[i] == o && o.status == "pending"
                && forall j :: 0 <= j < i ==> candidates[j].status != "pending"
  }

  /** The search of a repository's states for the one currently being tested. */
  method FindPending(candidates: seq<PullState>) returns (found: Option<PullState>)
    ensures found.Some? ==> IsFirstPending(candidates, found.value)
    ensures found.None? ==> forall i :: 0 <= i < |candidates| ==> candidates[i].status != "pending"
  {
    var i := 0;
    while i < |candidates|
      invariant 0 <= i <= |candidates|
      invariant forall j :: 0 <= j < i ==> candidates[j].status != "pending"
    {
      if candidates[i].status == "pending" {
        return Some(candidates[i]);
      }
      i := i + 1;
    }
    return None;
  }

  /** At most one state is the first pending one. */
  lemma FirstPendingUnique(candidates: seq<PullState>, a: PullState, b: PullState)
    requires IsFirstPending(candidates, a) && IsFirstPending(candidates, b)
    ensures a == b
  {
    var i :| 0 <= i < |candidates| && candidates[i] == a && a.status == "pending"
             && forall j :: 0 <= j < i ==> candidates[j].status != "pending";
    var k :| 0 <= k < |candidates| && candidates[k] == b && b.status == "pending"
             && forall j :: 0 <= j < k ==> candidates[j].status != "pending";
    assert !(i < k) && !(k < i);
  }

  /** The index of open pull requests: repository label to that repository's states. */
  type StatesIndex = map<string, seq<PullState>>

  class PullState {
    var num: int
    var title: string
    var headSha: string
    var mergeSha: string
    var approvedBy: string
    var status: string
    var tryBuild: bool
    var tryChoose: Option<string>
    var rollup: bool
    var delegate: string
    var priority: int
    var repoLabel: string

    /** Every collaborator call made on this state so far, oldest first. */
    var effects: seq<Effect>

    function Fields(): PullFields
      reads this
    {
      PullFields(num, title, headSha, mergeSha, approvedBy, status, tryBuild, tryChoose,
                 rollup, delegate, priority, repoLabel)
    }

    /** This state is the one its repository is currently testing. */
    predicate BeingTested(states: StatesIndex)
      reads this, if repoLabel in states then set i | 0 <= i < |states[repoLabel]| :: states[repoLabel][i] else {}
    {
      repoLabel in states && IsFirstPending(states[repoLabel], this)
    }

    /** A fresh state: unapproved, no try, no delegate, priority 0. */
    constructor (num: int, headSha: string, status: string, repoLabel: string)
      ensures Fields() == PullFields(num, "", headSha, "", "", status, false, None, false, "", 0, repoLabel)
      ensures effects == []
    {
      this.num := num;
      this.title := "";
      this.headSha := headSha;
      this.mergeSha := "";
      this.approvedBy := "";
      this.status := status;
      this.tryBuild := false;
      this.tryChoose := None;
      this.rollup := false;
      this.delegate := "";
      this.priority := 0;
      this.repoLabel := repoLabel;
      this.effects := [];
    }

    /** `treeclosed <n>`: closes the tree below priority n; a non-numeral only saves. */
    method SetTreeclosed(word: string)
      modifies this
      ensures Fields() == old(Fields())
      ensures effects == old(effects)
                         + (if ParseInt(word).Some? then [ChangeTreeclosed(ParseInt(word).value)] else [])
                         + [Save]
    {
      var n := ParseInt(word);
      if n.Some? {
        effects := effects + [ChangeTreeclosed(n.value)];
      }
      effects := effects + [Save];
    }

    /** `treeclosed-`: reopens the tree. */
    method TreeclosedNegative()
      modifies this
      ensures Fields() == old(Fields())
      ensures effects == old(effects) + [ChangeTreeclosed(-1), Save]
    {
      effects := effects + [ChangeTreeclosed(-1), Save];
    }

    /** `delegate+` / `delegate=<user>`: lets `delegate` approve; announced only in real time. */
    method DelegatePositive(delegate: string, realtime: bool)
      modifies this
      ensures Fields() == old(Fields()).(delegate := delegate)
      ensures effects == old(effects) + [Save]
                         + (if realtime then [AddComment(CanApprove(delegate))] else [])
    {
      this.delegate := delegate;
      effects := effects + [Save];
      if realtime {
        effects := effects + [AddComment(CanApprove(delegate))];
      }
    }

    /** `delegate_to`: the same command with its arguments in the other order. */
    method DelegateTo(realtime: bool, delegate: string)
      modifies this
      ensures Fields() == old(Fields()).(delegate := delegate)
      ensures effects == old(effects) + [Save]
                         + (if realtime then [AddComment(CanApprove(delegate))] else [])
    {
      DelegatePositive(delegate, realtime);
    }

    /** `delegate-`: withdraws the delegation. */
    method DelegateNegative()
      modifies this
      ensures Fields() == old(Fields()).(delegate := "")
      ensures effects == old(effects) + [Save]
    {
      delegate := "";
      effects := effects + [Save];
    }

    /** `ping`: a fixed reply, nothing else. */
    method HelloOrPing()
      modifies this
      ensures Fields() == old(Fields())
      ensures effects == old(effects) + [AddComment(Awake)]
    {
      effects := effects + [AddComment(Awake)];
    }

    /** `rollup` / `rollup-`: the flag is set by the positive word only. */
    method Rollup(word: string)
      modifies this
      ensures Fields() == old(Fields()).(rollup := word == "rollup")
      ensures effects == old(effects) + [Save]
    {
      rollup := word == "rollup";
      effects := effects + [Save];
    }

    /**
     * `try` / `try-`, optionally with `choose=<name>`. An unknown chooser is
     * refused with one comment listing the configured names; a repository
     * without choosers gets a comment and the try goes ahead unchosen.
     */
    method Try(word: string, realtime: bool, choosers: Option<ChooserConfig>, choose: Option<string>)
      modifies this
      ensures var c := ChooseTry(choosers, choose);
        if c.Unknown? then
          Fields() == old(Fields()).(tryChoose := None)
          && effects == old(effects) + [AddComment(UnknownChooser(c.requested, c.available))]
        else
          Fields() == old(Fields()).(tryBuild := word == "try",
                                     tryChoose := if c.Chosen? && word == "try" then Some(c.name) else None)
          && effects == old(effects)
                        + (if c.NotSetUp? then [AddComment(NoChoosers)] else [])
                        + [InitBuildRes([]), Save]
                        + (if word == "try" then [ChangeLabels(TRY)] else [])
      ensures ChooserOnlyWhileTrying(Fields())
    {
      var c := ChooseTry(choosers, choose);
      if c.Unknown? {
        tryChoose := None;
        effects := effects + [AddComment(UnknownChooser(c.requested, c.available))];
        return;
      }
      var notice := if c.NotSetUp? then [AddComment(NoChoosers)] else [];
      var relabel := if word == "try" then [ChangeLabels(TRY)] else [];
      tryBuild := word == "try";
      tryChoose := if c.Chosen? && word == "try" then Some(c.name) else None;
      effects := effects + notice + [InitBuildRes([]), Save] + relabel;
    }

    /** `clean`: forgets the merge commit and the build results. */
    method Clean()
      modifies this
      ensures Fields() == old(Fields()).(mergeSha := "")
      ensures effects == old(effects) + [InitBuildRes([]), Save]
    {
      mergeSha := "";
      effects := effects + [InitBuildRes([]), Save];
    }

    /** `retry`: re-queues by clearing the status; relabels as try or approved. */
    method Retry()
      modifies this
      ensures Fields() == old(Fields())
      ensures effects == old(effects) + [SetStatus(""), ChangeLabels(if tryBuild then TRY else APPROVED)]
    {
      effects := effects + [SetStatus(""), ChangeLabels(if tryBuild then TRY else APPROVED)];
    }

    /**
     * `p=<n>`: accepted up to `maxPriority`. Above it the priority is kept and
     * the refusal is announced; a non-numeral is refused silently.
     */
    method SetPriority(realtime: bool, word: string, maxPriority: int) returns (ok: bool)
      modifies this
      ensures ok <==> ParseInt(word).Some? && ParseInt(word).value <= maxPriority
      ensures ok ==> Fields() == old(Fields()).(priority := ParseInt(word).value)
                     && effects == old(effects) + [Save]
      ensures !ok ==> Fields() == old(Fields())
                      && effects == old(effects)
                                    + (if ParseInt(word).Some? then [AddComment(PriorityTooHigh(maxPriority))] else [])
    {
      var p := ParseInt(word);
      if p.None? {
        return false;
      }
      if p.value > maxPriority {
        effects := effects + [AddComment(PriorityTooHigh(maxPriority))];
        return false;
      }
      priority := p.value;
      effects := effects + [Save];
      return true;
    }

    /**
     * Whether `review_approved` posts its "already approved" notice: when this state
     * is approved, the command is live and not the bot's own, and this state is
     * the one its repository is testing.
     */
    method AlreadyApproved(realtime: bool, username: string, myUsername: string, states: StatesIndex)
      returns (notice: bool)
      requires approvedBy != "" && realtime && username != myUsername ==> repoLabel in states
      ensures notice <==> approvedBy != "" && realtime && username != myUsername && BeingTested(states)
    {
      notice := false;
      if approvedBy != "" && realtime && username != myUsername {
        var pending := FindPending(states[repoLabel]);
        notice := pending == Some(this);
        assert notice <==> BeingTested(states) by {
          if pending.Some? && BeingTested(states) {
            FirstPendingUnique(states[repoLabel], pending.value, this);
          }
        }
      }
    }

    /**
     * `r+` / `r=<approver>` (with an optional SHA). `username` issued the
     * command and `myUsername` is the bot's own account; `blockedBy` is the
     * answer of `blocked_by_closed_tree()`.
     */
    method ReviewApproved(realtime: bool, approver: string, username: string, myUsername: string,
                          sha: string, states: StatesIndex, blockedBy: nat) returns (accepted: bool)
      requires approvedBy != "" && realtime && username != myUsername ==> repoLabel in states
      modifies this
      ensures var o := ReviewApprovedOutcome(old(Fields()), realtime, approver, username, myUsername, sha,
                                             old(BeingTested(states)), blockedBy);
              accepted == o.accepted && Fields() == o.after && effects == old(effects) + o.emitted
      ensures ChooserOnlyWhileTrying(old(Fields())) ==> ChooserOnlyWhileTrying(Fields())
    {
      ReviewKeepsChooserRule(Fields(), realtime, approver, username, myUsername, sha,
                             BeingTested(states), blockedBy);
      if approver == "me" {
        return false;
      }
      if IsWip(title) {
        if realtime {
          effects := effects + [AddComment(WorkInProgress)];
        }
        return false;
      }
      var alreadyApproved := AlreadyApproved(realtime, username, myUsername, states);
      Approve(realtime, approver, username, myUsername, sha, alreadyApproved, blockedBy);
      return true;
    }

    /** The part of `review_approved` after the refusals: notice, SHA check, approval. */
    method Approve(realtime: bool, approver: string, username: string, myUsername: string,
                   sha: string, alreadyApproved: bool, blockedBy: nat)
      modifies this
      ensures var o := ApprovalOutcome(old(Fields()), realtime, approver, username, myUsername, sha,
                                       alreadyApproved, blockedBy);
              Fields() == o.after && effects == old(effects) + o.emitted
    {
      var notice := if alreadyApproved then [AddComment(AlreadyApprovedNote)] else [];
      var answer: seq<Effect> := [];
      if ShaCmp(sha, headSha) {
        answer := [SetStatus(""), Save];
      } else if realtime && username != myUsername {
        if sha != "" {
          answer := [AddComment(InvalidSha(sha, headSha))];
        } else {
          var closed := if blockedBy > 0 then [AddComment(TreeClosed(blockedBy))] else [];
          answer := [AddComment(ApprovalPinned(headSha, approver, myUsername))] + closed + [ChangeLabels(APPROVED)];
        }
      }
      assert answer == ShaAnswer(Fields(), realtime, approver, username, myUsername, sha, blockedBy);
      if ShaCmp(sha, headSha) {
        approvedBy := approver;
        tryBuild := false;
        tryChoose := None;
      }
      effects := effects + (notice + answer);
    }

    /** `r-`: withdraws the approval. */
    method ReviewRejected(realtime: bool)
      modifies this
      ensures Fields() == old(Fields()).(approvedBy := "")
      ensures effects == old(effects) + [Save, ChangeLabels(REJECTED)]
    {
      approvedBy := "";
      effects := effects + [Save, ChangeLabels(REJECTED)];
    }
  }
}

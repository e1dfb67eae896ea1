# homu command handlers, modelled in Dafny

homu is a merge-queue bot for GitHub. People give it commands in pull request
comments: `r+` and `r-` approve and reject, `try` starts a try build, and
there are also `retry`, `rollup`, `p=<n>`, `delegate+`/`delegate-`,
`treeclosed=<n>`, `clean`, `ping` and others. homu's `action` module holds one
handler per command. Each handler updates one pull request's state object and
calls the collaborator operations of that state:

- `save`
- `add_comment`
- `change_labels`
- `set_status`
- `init_build_res`
- `change_treeclosed`

`homu/action.py` is not part of this model. The handlers are modelled from the
behaviour that `tests/test_action.py` pins down: which fields change, which
collaborator calls happen in which order with which arguments, the exact
comment texts, and the return values. Every case of that file except
`still_here` is restated in the model:

- the three `sha_cmp` cases are the lemma `ShaMatch.ShaCmpExamples`;
- the two `rollup` cases are joined in `Scenarios.RollupRoundTrip`, over any state;
- every other case is a method of `scenarios.dfy`.

## Structure

- `wrappers.dfy`: `Option`.
- `strings.dfy` (module `Strings`): prefix test, ASCII upper-casing, "starts with any marker", and joining with a separator.
- `numerals.dfy` (module `Numerals`): decimal rendering and parsing of integers (`int(...)` and `str(...)` of the handlers' arguments).
- `sha.dfy` (module `ShaMatch`): `sha_cmp`, the abbreviated-SHA match.
- `choosers.dfy` (module `TryChoosers`): resolves `choose=<name>` against the repository's ordered try-chooser configuration.
- `action.dfy` (module `Action`):
  - the `PullState` class, with the handlers as its methods;
  - the `Comment` kinds and their texts (`Text`);
  - `review_approved` as a function of the state before the call (`ReviewApprovedOutcome`);
  - the search for the pull request a repository is testing.
- `approval.dfy` (module `ApprovalProperties`): properties of `review_approved`, over projections of the effect log onto saves, comments and label events.
- `scenarios.dfy` (module `Scenarios`): the test cases, and properties that relate several handler calls.

### The state and its effect log

`PullState` has the fields the handlers read and write, with their test defaults:

- `title`
- `head_sha`
- `merge_sha`
- `approved_by` (empty for none)
- `status`
- `try_` (named `tryBuild`)
- `try_choose`
- `rollup`
- `delegate`
- `priority`
- `repo_label`

The collaborators are not modelled. Instead, each call to one is appended, in
order, to the `effects` log. A comment is logged as a `Comment` value, and the
text posted for it is `Text(c)`.

Every handler's postcondition has two parts:

- the new fields, as `old(Fields())` with the changed fields replaced, so nothing else changes;
- the exact calls appended to the log.

Call counts and order follow from that.

### review_approved

- Approver `me` is refused silently.
- A title that starts (upper-cased) with `WIP`, `TODO`, `[WIP]`, `[TODO]` or `[DO NOT MERGE]` is refused. The "still in progress" comment is posted only in real time.
- Otherwise the command is accepted. It is answered as follows:
  - The "already approved" notice comes first when all of these hold:
    - `approved_by` is non-empty;
    - the command is real-time;
    - the command was not issued by the bot itself;
    - this state is the first pending state of its repository.
  - A SHA that `sha_cmp` matches against the head records the approval. It sets `approved_by` to the approver, clears `try_` and `try_choose`, calls `set_status('')` and saves.
  - A live command from someone other than the bot gets a reply instead, when its SHA does not match:
    - a wrong SHA is answered with the head to use;
    - a blank SHA is answered with the `:pushpin:` confirmation, the closed-tree notice if `blocked_by_closed_tree()` is positive, and the APPROVED label.

The confirmation's hidden trailer `<!-- @bot r=<approver> <head> -->` is a
command addressed to the bot itself. `ApprovalProperties.TrailerReplayApproves`
proves that replaying it records the approval of that head.

## Model

| member | source | states |
|---|---|---|
| ShaMatch.ShaCmp | tests/test_action.py:293-300 | `sha_cmp(short, full)` holds iff `short` has at least `MinShaLen` (4) characters and is a prefix of `full` |
| ShaMatch.ShaCmpExamples | tests/test_action.py:293-300 | the 7-character prefix `f259660` of the full hash matches; `aaabbb12` and the 3-character `f25` do not |
| ShaMatch.BlankShaNeverMatches | tests/test_action.py:245-254 | the blank SHA of an `r+` without SHA never matches a head |
| ShaMatch.ShaCmpSelf | tests/test_action.py:204-212 | a head matches itself iff it is at least `MinShaLen` long |
| ShaMatch.ShaCmpAgree | tests/test_action.py:293-300 | two SHAs that both match one head agree on their common length |
| ShaMatch.ShaCmpTruncate | tests/test_action.py:293-300 | any prefix of a matching SHA that is still `MinShaLen` long also matches |
| Action.WipMeansMarkerIgnoringCase | tests/test_action.py:189-201 | for every title: it is work in progress iff it starts with one of `WIP`, `TODO`, `[WIP]`, `[TODO]`, `[DO NOT MERGE]` in any mix of letter cases |
| Action.WipIgnoresCase | tests/test_action.py:189-201 | upper-casing a title first never changes whether it is work in progress |
| Strings.UpperIdempotent | tests/test_action.py:189-201 | upper-casing twice is upper-casing once |
| Strings.StartsWithAny | tests/test_action.py:189-201 | holds iff some marker is a prefix of the string |
| Numerals.ShowNat | tests/test_action.py:176-182 | the decimal rendering is non-empty, all digits and has no leading zero |
| Numerals.ShowInt | tests/test_action.py:176-182 | the rendering starts with `-` exactly for negative numbers |
| Numerals.DigitsValueOfShowNat | tests/test_action.py:168-182 | reading back the digits of a rendering gives the number |
| Numerals.ParseShow | tests/test_action.py:28-33 | parsing the rendering of any integer gives that integer back |
| Numerals.ParseIntRefuses | tests/test_action.py:168-182 | the empty word, a bare sign and non-digits are refused |
| Numerals.ParseIntExamples | tests/test_action.py:28-33 | `123`, `-1` and `5` parse to their values, as the treeclosed and priority cases use them |
| TryChoosers.Names | tests/test_action.py:93-101 | the configured chooser names, one per entry and in configuration order |
| TryChoosers.ChooseTry | tests/test_action.py:83-111 | no name asked: plain try; name asked without configuration: not set up; name not configured: unknown, listing every configured name in order; otherwise that chooser |
| TryChoosers.ChooseTryExamples | tests/test_action.py:83-111 | `foo` is unknown to `mac, wpt` and listed as such; `mac` is chosen; without configuration `foo` is not set up |
| Action.FindPending | tests/test_action.py:214-228 | returns the first state whose status is `pending`, or none when no state is pending |
| Action.FirstPendingUnique | tests/test_action.py:214-228 | at most one state is the first pending one |
| Action.PullState.constructor | tests/test_action.py:184-212 | a fresh state has no approver, no try, no chooser, no delegate, priority 0 and an empty log |
| Action.PullState.SetTreeclosed | tests/test_action.py:28-33 | calls `change_treeclosed(n)` for a numeral `n`, then saves once; no field changes |
| Action.PullState.TreeclosedNegative | tests/test_action.py:129-134 | calls `change_treeclosed(-1)` then saves once; no field changes |
| Action.PullState.DelegatePositive | tests/test_action.py:152-166 | sets `delegate`, saves once, and posts the "can now approve" comment only in real time |
| Action.PullState.DelegateTo | tests/test_action.py:35-43 | the same as `DelegatePositive`, with the arguments in the other order |
| Action.PullState.DelegateNegative | tests/test_action.py:144-150 | clears `delegate` and saves once |
| Action.PullState.HelloOrPing | tests/test_action.py:45-49 | posts the "I'm awake" comment and nothing else |
| Action.PullState.Rollup | tests/test_action.py:51-63 | sets `rollup` for `rollup`, clears it for `rollup-`, and saves once |
| Action.PullState.Try | tests/test_action.py:65-111 | unknown chooser: `try_choose` becomes none and one comment lists the configured names, with no init, save or label. Otherwise: an optional "not set up" comment, `try_` set for `try` and cleared for `try-`, `try_choose` the chosen name for `try` and none otherwise, `init_build_res([])`, one save, and TRY only for `try`. Afterwards a chooser is recorded only while a try is asked for |
| Action.ReviewKeepsChooserRule | tests/test_action.py:203-228 | `review_approved` keeps "a chooser only while a try is asked for"; when it changes the fields, both the try and its chooser are dropped |
| Action.PullState.Clean | tests/test_action.py:113-119 | clears `merge_sha`, calls `init_build_res([])` and saves once |
| Action.PullState.Retry | tests/test_action.py:121-142 | calls `set_status('')` then one label event: TRY when `try_` is set, APPROVED otherwise; no field changes |
| Action.PullState.SetPriority | tests/test_action.py:168-182 | at most the maximum: sets `priority`, saves once, returns true. Above it: returns false, keeps `priority`, posts the refusal and does not save |
| Action.PullState.AlreadyApproved | tests/test_action.py:214-228 | the notice is due iff `approved_by` is set, the command is real-time and not the bot's own, and this state is its repository's first pending state |
| Action.PullState.Approve | tests/test_action.py:203-283 | the fields and the appended calls are those of `ApprovalOutcome`: the notice, then the answer to the SHA |
| Action.PullState.ReviewApproved | tests/test_action.py:184-283 | the return value, the new fields and the appended calls are those of `ReviewApprovedOutcome` of the state before the call; a chooser stays recorded only while a try is asked for |
| Action.PullState.ReviewRejected | tests/test_action.py:285-291 | clears `approved_by`, saves once, and emits exactly one REJECTED |
| ApprovalProperties.ProjectionsAppend | tests/test_action.py:244-272 | the saves, comments and label events of two consecutive logs are those of each, concatenated |
| ApprovalProperties.ReviewRefusals | tests/test_action.py:184-201 | accepted iff the approver is not `me` and the title is not work in progress; a refusal changes nothing; `me` is silent; work in progress comments only in real time |
| ApprovalProperties.ReviewNotice | tests/test_action.py:214-272 | the comments of an accepted `r+` start with the "already approved" notice iff `approved_by` is set, the command is live and not the bot's own, and the state is the one its repository is testing |
| ApprovalProperties.AnswerProjections | tests/test_action.py:230-283 | the saves, labels and comments that the answer to each kind of SHA makes |
| ApprovalProperties.ApprovalRecordedOnMatchingSha | tests/test_action.py:203-228 | an accepted approval changes the fields iff the SHA matches the head, then exactly: approver recorded, try and chooser dropped; it saves once iff the SHA matches; the calls are then the notice, `set_status('')` and save |
| ApprovalProperties.ApprovalLabels | tests/test_action.py:258-272 | the only label event is one APPROVED, exactly for a live, non-bot `r+` with a blank SHA that does not match |
| ApprovalProperties.ApprovalComments | tests/test_action.py:230-272 | the comments in order: the notice if due, then the wrong-SHA reply, or the confirmation followed by the closed-tree notice when blocked |
| ApprovalProperties.TrailerReplayApproves | tests/test_action.py:244-256 | an `r+` without SHA leaves the fields alone and posts the confirmation; replaying its trailer as the bot records the approver, drops the try, and only resets the status and saves |
| Scenarios.RollupRoundTrip | tests/test_action.py:51-63 | `rollup` then `rollup-` leaves `rollup` false after two saves |
| Scenarios.DelegateRoundTrip | tests/test_action.py:144-166 | `delegate+` then `delegate-` leaves no delegate |
| Scenarios.TryRoundTrip | tests/test_action.py:65-81 | `try` then `try-` leaves no try pending, with one TRY label in all |
| Scenarios.TryThenRetry | tests/test_action.py:121-127 | `retry` after `try` emits TRY |
| Scenarios.ApproveThenRetry | tests/test_action.py:137-142 | `retry` after an approval of the head emits APPROVED, because the approval dropped the try |
| Scenarios.PriorityRefusalText | tests/test_action.py:176-182 | the refusal above maximum 3 reads `:stop_sign: Priority higher than 3 is ignored.` |
| Scenarios.PendingApprovedState | tests/test_action.py:214-222 | builds a pending, approved state that is the one its repository is testing |

## Left out

- `still_here`: its text is a random dialog line plus an image link, so it is nondeterministic.
- What the collaborators do is not modelled: persistence, the GitHub API, label synchronisation and build-result bookkeeping. Their calls are logged with their arguments. The fields they would change (`status`, the build results, the tree-closed threshold) stay as they are.
- `blocked_by_closed_tree()` is an input of `review_approved` (`blockedBy`), and the states index is an input too. It maps a repository label to that repository's states in iteration order.
- Action.PullState.ReviewApproved: requires `repo_label` to be a key of the states index when the notice conditions reach the lookup. The handler raises a missing-key error there, and exceptions are not modelled.
- Variants of the "already approved" notice that the tests do not exercise are not modelled: "previously failed" and "another pull request is being tested". The model posts no notice in those cases.
- Refetching a head SHA that is missing is not modelled.
- Parsing of command words from comment text is not modelled. Numeric arguments are parsed as an optional sign followed by ASCII digits. Python's `int()` also accepts surrounding whitespace, `_` separators and non-ASCII digits; those forms are refused here.
- Every numeric argument in the tests is a numeral, so they do not say what happens to one that is not. The model makes its own choice here: `set_priority` returns false with no calls, and `treeclosed` only saves.
- Upper-casing is ASCII only.
- Action.PullState.Try: `try_choose` is recorded only for `try`, and is cleared by `try-` and by an approval of the head. This keeps a chooser only while a try is asked for. The tests do not look at `try_choose` on those paths.
- `MinShaLen` is 4. The tests bound the minimum SHA length only between 4 and 7.
- `review_rejected` and `set_priority` are not gated on real time. The `realtime` argument of `_try` does not change its behaviour.
- Action.PullState.ReviewApproved: the blank-SHA `r+` does not itself set `approved_by`. The approval is recorded when the bot reads back the command in the confirmation's trailer (`TrailerReplayApproves`). A reading that has the blank SHA approve directly would also satisfy the tests, which do not look at `approved_by` on that path.
- Exact comment texts are stated in `Action.Text` and proved only for the priority refusal. Literal equalities for the other texts are left to the definition.
- Concurrency, and keeping the states index consistent, are not modelled.

/**
 * Try choosers: named subsets of a repository's builders that `try choose=<name>`
 * may select. The configuration is an ordered association list (an OrderedDict
 * in the repository configuration); a repository may have none at all.
 */
module TryChoosers {
  import opened Wrappers

  type ChooserConfig = seq<(string, seq<string>)>

  /** The chooser names, in configuration order. */
  function Names(cfg: ChooserConfig): (r: seq<string>)
    ensures |r| == |cfg|
    ensures forall i :: 0 <= i < |cfg| ==> r[i] == cfg[i].0
  {
    if cfg == [] then [] else [cfg[0].0] + Names(cfg[1..])
  }

  /** How a `try` command's optional chooser argument is settled. */
  datatype TryChoice =
    | Plain                                           // no chooser asked for
    | NotSetUp                                        // asked for, but the repository has no choosers
    | Unknown(requested: string, available: seq<string>)  // asked for a name that is not configured
    | Chosen(name: string)                            // asked for a configured name

  /**
   * A chooser is asked for when `choose` is present and non-empty (Python's
   * `if choose:`); it is then looked up among the configured names.
   */
  function ChooseTry(choosers: Option<ChooserConfig>, choose: Option<string>): (c: TryChoice)
    ensures c.Plain? <==> choose.None? || choose.value == ""
    ensures c.NotSetUp? <==> choose.Some? && choose.value != "" && choosers.None?
    ensures c.Unknown? ==> choose == Some(c.requested) && choosers.Some?
                           && c.available == Names(choosers.value)
                           && forall i :: 0 <= i < |choosers.value| ==> choosers.value[i].0 != c.requested
    ensures c.Chosen? ==> choose == Some(c.name) && choosers.Some?
                          && exists i :: 0 <= i < |choosers.value| && choosers.value[i].0 == c.name
  {
    if choose.None? || choose.value == "" then Plain
    else if choosers.None? then NotSetUp
    else
      var names := Names(choosers.value);
      if choose.value in names then Chosen(choose.value) else Unknown(choose.value, names)
  }

  /** The chooser configuration of tests/test_action.py. */
  const ExampleChoosers: ChooserConfig :=
    [("mac", ["mac-rel", "mac-wpt"]), ("wpt", ["linux-wpt-1", "linux-wpt-2"])]

  lemma ChooseTryExamples()
    ensures ChooseTry(Some(ExampleChoosers), Some("foo")) == Unknown("foo", ["mac", "wpt"])
    ensures ChooseTry(Some(ExampleChoosers), Some("mac")) == Chosen("mac")
    ensures ChooseTry(None, Some("foo")) == NotSetUp
    ensures ChooseTry(None, None) == Plain
  {
    assert Names(ExampleChoosers) == ["mac", "wpt"];
  }
}

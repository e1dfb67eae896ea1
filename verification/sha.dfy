/** Comparison of a possibly abbreviated commit SHA against a full one (`sha_cmp`). */
module ShaMatch {
  import opened Strings

  /**
   * Shortest abbreviation accepted. The cases in tests/test_action.py reject a
   * 3-character fragment and accept a 7-character one, so they allow 4 to 7.
   */
  const MinShaLen: nat := 4

  /** `short` names the commit `full`: long enough, and a character-for-character prefix of it. */
  function ShaCmp(short: string, full: string): (r: bool)
    ensures r <==> MinShaLen <= |short| <= |full|
                   && forall i :: 0 <= i < |short| ==> short[i] == full[i]
  {
    |short| >= MinShaLen && IsPrefix(short, full)
  }

  const ExampleFullSha: string := "f259660b128ae59133dff123998ee9b643aff050"

  /** The three comparisons the test suite makes. */
  lemma ShaCmpExamples()
    ensures ShaCmp("f259660", ExampleFullSha)
    ensures !ShaCmp("aaabbb12", ExampleFullSha)
    ensures !ShaCmp("f25", ExampleFullSha)
  {
    var short := "f259660";
    assert short[0] == ExampleFullSha[0] && short[1] == ExampleFullSha[1] && short[2] == ExampleFullSha[2];
    assert short[3] == ExampleFullSha[3] && short[4] == ExampleFullSha[4] && short[5] == ExampleFullSha[5];
    assert short[6] == ExampleFullSha[6];
    assert "aaabbb12"[0] != ExampleFullSha[0];
  }

  /** The empty SHA (an `r+` without a commit) never matches. */
  lemma BlankShaNeverMatches(full: string)
    ensures !ShaCmp("", full)
  {
  }

  /** A full hash matches itself exactly when it is long enough to be an abbreviation. */
  lemma ShaCmpSelf(full: string)
    ensures ShaCmp(full, full) <==> |full| >= MinShaLen
  {
  }

  /** Two accepted abbreviations of one commit agree on their common length. */
  lemma {:induction false} ShaCmpAgree(a: string, b: string, full: string)
    requires ShaCmp(a, full) && ShaCmp(b, full) && |a| <= |b|
    ensures IsPrefix(a, b) && ShaCmp(a, b)
  {
    assert forall i :: 0 <= i < |a| ==> a[i] == full[i] == b[i];
    assert a == b[..|a|];
  }

  /** Truncating an accepted abbreviation, down to the minimum, keeps it accepted. */
  lemma {:induction false} ShaCmpTruncate(short: string, full: string, k: nat)
    requires ShaCmp(short, full) && MinShaLen <= k <= |short|
    ensures ShaCmp(short[..k], full)
  {
    assert forall i :: 0 <= i < k ==> short[..k][i] == short[i] == full[i];
  }
}

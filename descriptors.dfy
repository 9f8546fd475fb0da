/**
 * The output-descriptor shape of a wallet this tool created: two taproot
 * (`tr(`) descriptors, and any number of raw taproot (`rawtr(`) ones.
 */
module Descriptors {

  /** `str::starts_with`. */
  predicate StartsWith(s: string, prefix: string) {
    |prefix| <= |s| && s[..|prefix|] == prefix
  }

  /** `descriptors.iter().filter(|d| d.starts_with(prefix)).count()`. */
  function CountStartingWith(descriptors: seq<string>, prefix: string): (n: nat)
    ensures n <= |descriptors|
    ensures n == 0 <==> forall i :: 0 <= i < |descriptors| ==> !StartsWith(descriptors[i], prefix)
    ensures n == |descriptors| <==> forall i :: 0 <= i < |descriptors| ==> StartsWith(descriptors[i], prefix)
  {
    if descriptors == [] then 0
    else
      CountStartingWith(descriptors[..|descriptors| - 1], prefix)
      + (if StartsWith(descriptors[|descriptors| - 1], prefix) then 1 else 0)
  }

  /** No descriptor starts both with `tr(` and with `rawtr(`. */
  lemma TaprootTagsExclusive(d: string)
    ensures !(StartsWith(d, "tr(") && StartsWith(d, "rawtr("))
  {
    assert StartsWith(d, "tr(") ==> d[..3][0] == 't';
    assert StartsWith(d, "rawtr(") ==> d[..6][0] == 'r';
  }

  /** The descriptors that start with neither tag. */
  function CountUntagged(descriptors: seq<string>): (n: nat)
    ensures n <= |descriptors|
    ensures n == 0 <==> forall i :: 0 <= i < |descriptors| ==>
      StartsWith(descriptors[i], "tr(") || StartsWith(descriptors[i], "rawtr(")
  {
    if descriptors == [] then 0
    else
      var last := descriptors[|descriptors| - 1];
      CountUntagged(descriptors[..|descriptors| - 1])
      + (if StartsWith(last, "tr(") || StartsWith(last, "rawtr(") then 0 else 1)
  }

  /** Every descriptor is counted once: as `tr(`, as `rawtr(`, or as neither. */
  lemma {:induction false} DescriptorsPartition(descriptors: seq<string>)
    ensures CountStartingWith(descriptors, "tr(") + CountStartingWith(descriptors, "rawtr(") + CountUntagged(descriptors)
            == |descriptors|
  {
    if descriptors != [] {
      DescriptorsPartition(descriptors[..|descriptors| - 1]);
      TaprootTagsExclusive(descriptors[|descriptors| - 1]);
    }
  }

  /**
   * The count test a wallet must pass: two `tr(` descriptors, and as many
   * descriptors besides as there are `rawtr(` ones. It holds exactly when
   * there are two `tr(` descriptors and every other one is `rawtr(`.
   */
  function IsOrdWallet(descriptors: seq<string>): (ok: bool)
    ensures ok <==>
      CountStartingWith(descriptors, "tr(") == 2
      && forall i :: 0 <= i < |descriptors| ==> StartsWith(descriptors[i], "tr(") || StartsWith(descriptors[i], "rawtr(")
  {
    DescriptorsPartition(descriptors);
    CountStartingWith(descriptors, "tr(") == 2 && |descriptors| == 2 + CountStartingWith(descriptors, "rawtr(")
  }
}

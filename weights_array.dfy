/**
 * The `weights[30]` branch of a ggH4lMG run: the event's named weights are
 * written, in increasing order of their names, into the leading slots of a
 * fixed buffer of thirty floats (lhe2rootggH.py:135-137, 360-366 and
 * lhe2root.py:156-158, 578-584).
 */
module WeightsArray {
  import opened Wrappers
  import opened PyErrors
  import opened Lexicon
  import opened Branches

  /** `num_weights` */
  const SlotCount: nat := 30

  /** The buffer after the weights of `names` have been written, in that order. */
  function Written(slots: seq<Value>, names: seq<string>, weights: map<string, string>): (r: seq<Value>)
    requires |names| <= |slots|
    requires forall j | 0 <= j < |names| :: names[j] in weights
    ensures |r| == |slots|
  {
    seq(|slots|, j requires 0 <= j < |slots| => if j < |names| then Number(weights[names[j]]) else slots[j])
  }

  /**
   * The sorted-order fill: the buffer after the write loop, or the IndexError
   * the write of slot `|slots|` raises when there are more weights than slots.
   */
  ghost function AfterFill(slots: seq<Value>, weights: map<string, string>): Result<seq<Value>, Error> {
    if |weights| > |slots| then Err(IndexOutOfRange(|slots|, |slots|))
    else
      SortedKeysListsKeys(weights.Keys);
      Ok(Written(slots, SortedKeys(weights.Keys), weights))
  }

  /** `list_weights`: the value of each name, in the order of `names`. */
  method ValuesInOrder(names: seq<string>, weights: map<string, string>) returns (values: seq<string>)
    requires forall k | k in names :: k in weights
    ensures |values| == |names|
    ensures forall j | 0 <= j < |names| :: values[j] == weights[names[j]]
  {
    values := [];
    for i := 0 to |names|
      invariant |values| == i
      invariant forall j | 0 <= j < i :: values[j] == weights[names[j]]
    {
      values := values + [weights[names[i]]];
    }
  }

  /**
   * `key_sorted = sorted(weights)`, the list of their values, then
   * `branches["weights"][j] = list_weights[j]` for every `j`.
   */
  method FillWeights(slots: array<Value>, weights: map<string, string>) returns (failure: Option<Error>)
    modifies slots
    ensures failure.None? ==> AfterFill(old(slots[..]), weights) == Ok(slots[..])
    ensures failure.Some? ==> AfterFill(old(slots[..]), weights) == Err(failure.value)
  {
    var keySorted := SortedNames(weights);
    var listWeights := ValuesInOrder(keySorted, weights);
    ghost var before := slots[..];
    for j := 0 to |listWeights|
      invariant j <= slots.Length
      invariant slots[..] == Written(before, keySorted[..j], weights)
    {
      if j >= slots.Length {
        return Some(IndexOutOfRange(j, slots.Length));
      }
      WrittenStep(before, keySorted, j, weights);
      slots[j] := Number(listWeights[j]);
    }
    assert keySorted[..|keySorted|] == keySorted;
    return None;
  }

  /** Writing the next name's weight extends the written prefix by one slot. */
  lemma WrittenStep(slots: seq<Value>, names: seq<string>, j: nat, weights: map<string, string>)
    requires j < |names| && j < |slots|
    requires forall i | 0 <= i < |names| :: names[i] in weights
    ensures Written(slots, names[..j + 1], weights) == Written(slots, names[..j], weights)[j := Number(weights[names[j]])]
  {
  }

  /**
   * The order is that of the names alone: for any strictly increasing listing
   * of the names, slot `j` holds the weight of the `j`-th name and the slots
   * after the last weight keep what they held.
   */
  lemma SlotsFollowSortedNames(slots: seq<Value>, weights: map<string, string>, names: seq<string>)
    requires StrictlySorted(names)
    requires forall k :: k in names <==> k in weights
    requires |weights| <= |slots|
    ensures |names| == |weights|
    ensures AfterFill(slots, weights).Ok?
    ensures forall j | 0 <= j < |names| :: AfterFill(slots, weights).value[j] == Number(weights[names[j]])
    ensures forall j | |names| <= j < |slots| :: AfterFill(slots, weights).value[j] == slots[j]
  {
    SortedKeysListsKeys(weights.Keys);
    SortedIsUnique(names, SortedKeys(weights.Keys));
  }

  /** The fill fails exactly when there are more weights than slots, and never before. */
  lemma FillFailsIffTooMany(slots: seq<Value>, weights: map<string, string>)
    ensures AfterFill(slots, weights).Err? <==> |weights| > |slots|
    ensures AfterFill(slots, weights).Ok? ==> |AfterFill(slots, weights).value| == |slots|
  {
  }

  /** Two weights whose names are in increasing order land in increasing slots. */
  lemma SmallerNameEarlierSlot(slots: seq<Value>, weights: map<string, string>, a: string, b: string)
      returns (i: nat, j: nat)
    requires a in weights && b in weights && Less(a, b)
    requires |weights| <= |slots|
    ensures i < j < |weights| <= |slots|
    ensures SortedKeys(weights.Keys)[i] == a && SortedKeys(weights.Keys)[j] == b
    ensures AfterFill(slots, weights).Ok? && |AfterFill(slots, weights).value| == |slots|
    ensures AfterFill(slots, weights).value[i] == Number(weights[a])
    ensures AfterFill(slots, weights).value[j] == Number(weights[b])
  {
    var names := SortedKeys(weights.Keys);
    SortedKeysListsKeys(weights.Keys);
    i :| 0 <= i < |names| && names[i] == a;
    j :| 0 <= j < |names| && names[j] == b;
    if j < i {
      LessTransitive(a, b, a);
    }
    LessIrreflexive(a);
  }
}

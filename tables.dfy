/** Array searches the store performs, stated over the column of keys they compare against. */
module Tables {
  import opened Wrappers
  import opened JsString

  /** `findIndex(r => key(r) === k)`: the first position whose key is `k`, or none. */
  function IndexOf(keys: seq<string>, k: string): (r: Option<nat>)
    ensures r.Some? ==> r.value < |keys| && keys[r.value] == k
    ensures r.Some? ==> forall j :: 0 <= j < r.value ==> keys[j] != k
    ensures r.None? <==> k !in keys
  {
    if keys == [] then None
    else if keys[0] == k then Some(0)
    else match IndexOf(keys[1..], k)
      case None => None
      case Some(i) => Some(i + 1)
  }

  /** Every id is the decimal form of its 1-based position: what `(length + 1).toString()` on
      every insertion, and no deletion, leaves behind. */
  ghost predicate IdsArePositions(ids: seq<string>) {
    forall i :: 0 <= i < |ids| ==> ids[i] == NatToString(i + 1)
  }

  ghost predicate Distinct(keys: seq<string>) {
    forall i, j :: 0 <= i < j < |keys| ==> keys[i] != keys[j]
  }

  lemma PositionalIdsAreDistinct(ids: seq<string>)
    requires IdsArePositions(ids)
    ensures Distinct(ids)
  {
    forall i, j | 0 <= i < j < |ids| ensures ids[i] != ids[j] {
      NatToStringInjective(i + 1, j + 1);
    }
  }

  /** With positional ids, the record with id `n` (in decimal) is found at index `n - 1`. */
  lemma PositionalIdFoundAt(ids: seq<string>, n: nat)
    requires IdsArePositions(ids) && 1 <= n <= |ids|
    ensures IndexOf(ids, NatToString(n)) == Some(n - 1)
  {
    var r := IndexOf(ids, NatToString(n));
    assert ids[n - 1] == NatToString(n);
    NatToStringInjective(r.value + 1, n);
  }

  /** With positional ids, an id is found exactly when it is the decimal form of a position `1..|ids|`. */
  lemma PositionalIdsOnly(ids: seq<string>, k: string)
    requires IdsArePositions(ids)
    ensures IndexOf(ids, k).Some? <==> exists n: nat :: 1 <= n <= |ids| && k == NatToString(n)
  {
    if IndexOf(ids, k).Some? {
      var i := IndexOf(ids, k).value;
      assert k == NatToString(i + 1);
    } else {
      forall n: nat | 1 <= n <= |ids| ensures k != NatToString(n) {
        assert ids[n - 1] == NatToString(n);
      }
    }
  }

  /** Appending one record at the end with id `|ids| + 1` keeps the ids positional. */
  lemma AppendKeepsPositions(ids: seq<string>)
    requires IdsArePositions(ids)
    ensures IdsArePositions(ids + [NatToString(|ids| + 1)])
  {
  }
}

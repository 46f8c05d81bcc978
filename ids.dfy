/** The random identifiers of the store: order IDs (`ORDER-`, three groups),
    refund IDs (`REF-`, two groups) and key codes (`STRATS-`, three groups).
    Each group is five characters drawn from A-Z0-9 and groups are joined by
    '-'. `Math.floor(Math.random() * 36)` becomes a given sequence of picks. */
module Ids {
  import opened Text

  const Alphabet: string := "ABCDEFGHIJKLMNOPQRSTUVWXYZ0123456789"
  const GroupLength: nat := 5

  predicate IdChar(c: char) {
    'A' <= c <= 'Z' || '0' <= c <= '9'
  }

  lemma AlphabetChars()
    ensures |Alphabet| == 36
    ensures forall i :: 0 <= i < 36 ==> IdChar(Alphabet[i])
  {
  }

  /** `prefix` followed by `groups` groups of five ID characters, a '-' after
      every group but the last. */
  predicate Shaped(id: string, prefix: string, groups: nat) {
    groups >= 1
    && |id| == |prefix| + 6 * groups - 1
    && id[..|prefix|] == prefix
    && forall k :: |prefix| <= k < |id| ==>
         if (k - |prefix|) % 6 == 5 then id[k] == '-' else IdChar(id[k])
  }

  /** The pick used for character `m` of the part after the prefix (`m % 6 != 5`). */
  function PickIndex(m: nat): nat {
    GroupLength * (m / 6) + m % 6
  }

  lemma PositionInGroup(i: nat, j: nat)
    requires j < 6
    ensures (6 * i + j) / 6 == i && (6 * i + j) % 6 == j
  {
  }

  /** Character `c` is the right one for position `m` after the prefix. */
  predicate FitsAt(m: nat, c: char, picks: seq<nat>) {
    if m % 6 == 5 then c == '-'
    else PickIndex(m) < |picks| && picks[PickIndex(m)] < |Alphabet| && c == Alphabet[picks[PickIndex(m)]]
  }

  /** Every character after the prefix is the right one for its position. */
  predicate Filled(id: string, prefix: string, picks: seq<nat>) {
    |prefix| <= |id| && id[..|prefix|] == prefix
    && forall k :: |prefix| <= k < |id| ==> FitsAt(k - |prefix|, id[k], picks)
  }

  lemma FilledAppend(id: string, prefix: string, picks: seq<nat>, c: char)
    requires Filled(id, prefix, picks) && FitsAt(|id| - |prefix|, c, picks)
    ensures Filled(id + [c], prefix, picks)
  {
    assert (id + [c])[..|prefix|] == id[..|prefix|];
  }

  /** The nested loops of generateOrderId, generateRefundId and generateKeyCode:
      character j of group i is `Alphabet[picks[5 * i + j]]`, and a '-' follows
      every group but the last. */
  method RandomId(prefix: string, groups: nat, picks: seq<nat>) returns (id: string)
    requires groups >= 1 && |picks| == GroupLength * groups
    requires forall k :: 0 <= k < |picks| ==> picks[k] < |Alphabet|
    ensures Shaped(id, prefix, groups)
    ensures Filled(id, prefix, picks)
  {
    AlphabetChars();
    id := prefix;
    var i := 0;
    while i < groups
      invariant 0 <= i <= groups
      invariant |id| == |prefix| + 6 * i - (if i == groups then 1 else 0)
      invariant Filled(id, prefix, picks)
    {
      var j := 0;
      while j < GroupLength
        invariant 0 <= j <= GroupLength
        invariant |id| == |prefix| + 6 * i + j
        invariant Filled(id, prefix, picks)
      {
        PositionInGroup(i, j);
        assert 5 * i + j < 5 * groups by {
          assert 5 * i <= 5 * (groups - 1);
        }
        FilledAppend(id, prefix, picks, Alphabet[picks[5 * i + j]]);
        id := id + [Alphabet[picks[5 * i + j]]];
        j := j + 1;
      }
      if i < groups - 1 {
        PositionInGroup(i, 5);
        FilledAppend(id, prefix, picks, '-');
        id := id + "-";
      }
      i := i + 1;
    }
    forall k | |prefix| <= k < |id|
      ensures if (k - |prefix|) % 6 == 5 then id[k] == '-' else IdChar(id[k])
    {
      assert FitsAt(k - |prefix|, id[k], picks);
    }
  }

  /** An ID whose prefix has no lower-case letter is unchanged by upper-casing,
      so `toUpperCase()` on a pasted ID finds the same row. */
  lemma ShapedIsUpper(id: string, prefix: string, groups: nat)
    requires Shaped(id, prefix, groups) && Upper(prefix) == prefix
    ensures Upper(id) == id
  {
    forall k | 0 <= k < |id|
      ensures Upper(id)[k] == id[k]
    {
      if k < |prefix| {
        assert id[k] == prefix[k] && Upper(prefix)[k] == UpperChar(prefix[k]);
      }
    }
  }

  /** An ID holds no '_' when its prefix holds none. */
  lemma ShapedNoUnderscore(id: string, prefix: string, groups: nat)
    requires Shaped(id, prefix, groups) && '_' !in prefix
    ensures '_' !in id
  {
    forall k | 0 <= k < |id|
      ensures id[k] != '_'
    {
      if k < |prefix| {
        assert id[k] == id[..|prefix|][k];
      }
    }
  }
}

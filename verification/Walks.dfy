/** Walks over a table whose keys come in no particular order. */
module Walks {
  import opened Sequences

  /** `order` is one order in which a table with these keys can be walked. */
  ghost predicate Enumerates(order: seq<nat>, keys: set<nat>) {
    Distinct(order) && forall k :: k in order <==> k in keys
  }

  /** One step of a walk: the next key is in the table and has not been visited. */
  lemma WalkedApart(order: seq<nat>, keys: set<nat>, i: nat)
    requires Enumerates(order, keys) && i < |order|
    ensures order[..i + 1] == order[..i] + [order[i]] && order[..i + 1][..i] == order[..i]
    ensures order[i] in keys && order[i] !in order[..i] && Distinct(order[..i])
    ensures forall k :: k in order[..i + 1] ==> k in keys
  {
  }
}

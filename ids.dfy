/**
 * Document ids. The store hands out ids from a counter; a route parameter is
 * matched against an id's decimal text, as `findById(req.params.id)` matches
 * the string form of an ObjectId.
 */
module Ids {
  import opened Wrappers
  import opened Strings

  function IdText(id: nat): string {
    NatToString(id)
  }

  /** Distinct ids have distinct texts, so a route parameter names at most one id. */
  lemma IdTextInjective(a: nat, b: nat)
    requires IdText(a) == IdText(b)
    ensures a == b
  {
    NatToStringValue(a);
    NatToStringValue(b);
  }

  /** The first document whose id reads as `id`. */
  function FindById<T>(docs: seq<T>, idOf: T -> nat, id: string): (k: Option<nat>)
    ensures k.None? <==> forall i :: 0 <= i < |docs| ==> IdText(idOf(docs[i])) != id
    ensures k.Some? ==> k.value < |docs| && IdText(idOf(docs[k.value])) == id &&
                        forall i :: 0 <= i < k.value ==> IdText(idOf(docs[i])) != id
    decreases |docs|
  {
    if |docs| == 0 then None
    else if IdText(idOf(docs[0])) == id then Some(0)
    else match FindById(docs[1..], idOf, id)
      case None => None
      case Some(k) => Some(k + 1)
  }

  /** The lookup depends only on the ids: collections with the same ids in the
      same order find the same position. */
  lemma {:induction false} FindByIdSameIds<T>(a: seq<T>, b: seq<T>, idOf: T -> nat, id: string)
    requires |a| == |b| && forall i :: 0 <= i < |a| ==> idOf(a[i]) == idOf(b[i])
    ensures FindById(a, idOf, id) == FindById(b, idOf, id)
    decreases |a|
  {
    if |a| > 0 {
      FindByIdSameIds(a[1..], b[1..], idOf, id);
    }
  }

  /** When ids are unique, the document found is the only one with that id. */
  lemma FindByIdUnique<T>(docs: seq<T>, idOf: T -> nat, id: string, j: nat)
    requires forall i, i' :: 0 <= i < i' < |docs| ==> idOf(docs[i]) != idOf(docs[i'])
    requires j < |docs| && IdText(idOf(docs[j])) == id
    ensures FindById(docs, idOf, id) == Some(j)
  {
    var k := FindById(docs, idOf, id).value;
    if k != j {
      IdTextInjective(idOf(docs[k]), idOf(docs[j]));
    }
  }

  /** The collection without its `k`-th element; the others keep their order. */
  function RemoveAt<T>(docs: seq<T>, k: nat): (r: seq<T>)
    requires k < |docs|
    ensures |r| == |docs| - 1
    ensures forall i :: 0 <= i < k ==> r[i] == docs[i]
    ensures forall i :: k <= i < |r| ==> r[i] == docs[i + 1]
  {
    docs[..k] + docs[k + 1..]
  }
}

/**
 * What the metadata loaders see of a paged Cloud Controller listing: the
 * pages the fetcher hands to a loader's page handler, each either decoded
 * into resources (a metadata envelope around an entity) or undecodable,
 * and the error the fetcher reports at the end. The specification of the
 * handlers' accumulation and of the first-match lookups lives here, once,
 * for apps and routes alike.
 */
module Paging {
  import opened Wrappers

  /** The metadata envelope of a resource; its guid is the authoritative one. */
  datatype Meta = Meta(guid: string)

  /** One element of a response's "resources" list. */
  datatype Resource<E> = Resource(meta: Meta, entity: E)

  /** One response body: decoded into its resources, or rejected by the decoder with a reason. */
  datatype Page<E> = Decoded(resources: seq<Resource<E>>) | Undecodable(reason: string)

  /**
   * A whole fetch: the pages handed to the handler, in order, and the error
   * the fetcher returns (None on success).
   */
  datatype Run<E> = Run(pages: seq<Page<E>>, error: Option<string>)

  /**
   * The entities of a resource list with each one's guid overwritten by its
   * envelope's guid; `withGuid` sets the guid field of the entity type.
   */
  function Reconciled<E>(rs: seq<Resource<E>>, withGuid: (E, string) -> E): (r: seq<E>)
    ensures |r| == |rs|
    ensures forall i | 0 <= i < |rs| :: r[i] == withGuid(rs[i].entity, rs[i].meta.guid)
  {
    if rs == [] then []
    else Reconciled(rs[..|rs| - 1], withGuid) + [withGuid(rs[|rs| - 1].entity, rs[|rs| - 1].meta.guid)]
  }

  /** What one page adds to the accumulator: its reconciled entities, or nothing when it did not decode. */
  function PageEntities<E>(page: Page<E>, withGuid: (E, string) -> E): (r: seq<E>)
    ensures page.Undecodable? ==> r == []
    ensures page.Decoded? ==>
              && |r| == |page.resources|
              && forall i | 0 <= i < |r| :: r[i] == withGuid(page.resources[i].entity, page.resources[i].meta.guid)
  {
    match page
    case Decoded(rs) => Reconciled(rs, withGuid)
    case Undecodable(_) => []
  }

  /** The number of resources on the pages that decoded. */
  function DecodedCount<E>(pages: seq<Page<E>>): nat {
    if pages == [] then 0
    else DecodedCount(pages[..|pages| - 1]) +
         (match pages[|pages| - 1] case Decoded(rs) => |rs| case Undecodable(_) => 0)
  }

  /**
   * The accumulator after the handler has seen every page, starting from the
   * empty list: one entity per resource of every decoded page.
   */
  function Accumulated<E>(pages: seq<Page<E>>, withGuid: (E, string) -> E): (r: seq<E>)
    ensures |r| == DecodedCount(pages)
  {
    if pages == [] then []
    else Accumulated(pages[..|pages| - 1], withGuid) + PageEntities(pages[|pages| - 1], withGuid)
  }

  /** One step of the page loop: the accumulator over a prefix one page longer. */
  lemma AccumulatedStep<E>(pages: seq<Page<E>>, index: nat, withGuid: (E, string) -> E)
    requires index < |pages|
    ensures Accumulated(pages[..index + 1], withGuid) ==
            Accumulated(pages[..index], withGuid) + PageEntities(pages[index], withGuid)
  {
    assert pages[..index + 1][..index] == pages[..index];
  }

  /** One step of a resource loop: the reconciled list of a prefix one resource longer. */
  lemma ReconciledStep<E>(rs: seq<Resource<E>>, index: nat, withGuid: (E, string) -> E)
    requires index < |rs|
    ensures Reconciled(rs[..index + 1], withGuid) ==
            Reconciled(rs[..index], withGuid) + [withGuid(rs[index].entity, rs[index].meta.guid)]
  {
    assert rs[..index + 1][..index] == rs[..index];
  }

  /** Pages are handled in order: a fetch split in two accumulates the two halves one after the other. */
  lemma {:induction false} AccumulatedConcat<E>(a: seq<Page<E>>, b: seq<Page<E>>, withGuid: (E, string) -> E)
    ensures Accumulated(a + b, withGuid) == Accumulated(a, withGuid) + Accumulated(b, withGuid)
    decreases |b|
  {
    if b == [] {
      assert a + b == a;
    } else {
      var b' := b[..|b| - 1];
      var last := b[|b| - 1];
      assert (a + b)[..|a + b| - 1] == a + b';
      assert (a + b)[|a + b| - 1] == last;
      AccumulatedConcat(a, b', withGuid);
      var x := Accumulated(a, withGuid);
      var y := Accumulated(b', withGuid);
      var z := PageEntities(last, withGuid);
      assert (x + y) + z == x + (y + z);
    }
  }

  /** A page the decoder rejected adds nothing, wherever it comes in the fetch. */
  lemma UndecodableAddsNothing<E>(a: seq<Page<E>>, reason: string, b: seq<Page<E>>, withGuid: (E, string) -> E)
    ensures Accumulated(a + [Undecodable(reason)] + b, withGuid) == Accumulated(a + b, withGuid)
  {
    var bad: seq<Page<E>> := [Undecodable(reason)];
    assert Accumulated(bad, withGuid) == [] by {
      assert bad[..0] == [];
    }
    AccumulatedConcat(a + bad, b, withGuid);
    AccumulatedConcat(a, bad, withGuid);
    AccumulatedConcat(a, b, withGuid);
    var x := Accumulated(a, withGuid);
    assert Accumulated(a + bad, withGuid) == x + [];
    assert x + [] == x;
  }

  /**
   * The index of the first element whose guid is `id`, |xs| when there is
   * none: the position a range loop with an early return stops at.
   */
  function IndexOf<E>(xs: seq<E>, guidOf: E -> string, id: string): (i: nat)
    ensures i <= |xs|
    ensures forall j | 0 <= j < i :: guidOf(xs[j]) != id
    ensures i < |xs| ==> guidOf(xs[i]) == id
  {
    if xs == [] then 0
    else if guidOf(xs[0]) == id then 0
    else 1 + IndexOf(xs[1..], guidOf, id)
  }

  /** With distinct guids, searching for an element's own guid finds that element. */
  lemma IndexOfDistinct<E>(xs: seq<E>, guidOf: E -> string, k: nat)
    requires k < |xs|
    requires forall i, j | 0 <= i < j < |xs| :: guidOf(xs[i]) != guidOf(xs[j])
    ensures IndexOf(xs, guidOf, guidOf(xs[k])) == k
  {
  }
}

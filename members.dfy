/** The member indexes (`struct osm_members`): IDs appended during a pass,
    sorted at the end of it, and then searched. Only the set of IDs an index
    holds and whether it has been sorted since its last append are modelled;
    the search itself is binary search, which is exact on a sorted index and
    is an unknown answer (`Externals.searchUnsorted`) on an unsorted one. */
module Members {
  import opened Common
  import opened Proto

  datatype IndexState = IndexState(ids: seq<int>, sorted: bool)

  /** `osm_is_member(ix, id) != -1`. */
  function Contains(ix: IndexState, id: int, ext: Externals): (found: bool)
    ensures ix.sorted ==> (found <==> id in ix.ids)
  {
    if ix.sorted then id in ix.ids else ext.searchUnsorted(ix.ids, id)
  }

  /** All IDs of a sequence of appended batches, in append order. */
  function Flatten(batches: seq<seq<int>>): (r: seq<int>)
  {
    if batches == [] then [] else Flatten(batches[..|batches| - 1]) + batches[|batches| - 1]
  }

  /** Once sorted, an index answers "yes" for exactly the IDs that some
      append put into it. */
  lemma {:induction false} SortedIndexAnswersAppended(batches: seq<seq<int>>, id: int, ext: Externals)
    ensures Contains(IndexState(Flatten(batches), true), id, ext) <==>
            exists i :: 0 <= i < |batches| && id in batches[i]
  {
    if batches != [] {
      var init := batches[..|batches| - 1];
      SortedIndexAnswersAppended(init, id, ext);
      assert forall i :: 0 <= i < |init| ==> init[i] == batches[i];
      if id in batches[|batches| - 1] {
        assert id in Flatten(batches);
      }
    }
  }

  /** The index after appending `ids` (a non-empty append leaves it unsorted). */
  function Added(ix: IndexState, ids: seq<int>): (r: IndexState)
    ensures r.ids == ix.ids + ids
    ensures ids != [] ==> !r.sorted
  {
    if ids == [] then ix else IndexState(ix.ids + ids, false)
  }

  /** The index after `osm_sort_member`. The IDs keep their arrival order:
      a search of a sorted index depends only on which IDs it holds, and no
      index is searched unsorted once it has been sorted. */
  function SortedIndex(ix: IndexState): IndexState {
    IndexState(ix.ids, true)
  }

  /** Two appends in a row are one append of both batches. */
  lemma AddedTwice(ix: IndexState, a: seq<int>, b: seq<int>)
    ensures Added(Added(ix, a), b) == Added(ix, a + b)
  {
    assert ix.ids + a + b == ix.ids + (a + b);
    if a == [] {
      assert a + b == b;
    } else if b == [] {
      assert a + b == a;
    }
  }

  class MemberList {
    var ids: seq<int>
    var sorted: bool

    /** An empty index: a search of it finds nothing. */
    constructor ()
      ensures ids == [] && sorted
    {
      ids, sorted := [], true;
    }

    function State(): IndexState
      reads this
    {
      IndexState(ids, sorted)
    }

    /** `osm_add_members`: append, which leaves the index unsorted (the
        source never calls it with an empty batch). */
    method Add(refs: seq<int>)
      requires refs != []
      modifies this
      ensures ids == old(ids) + refs && !sorted
      ensures State() == Added(old(State()), refs)
    {
      ids := ids + refs;
      sorted := false;
    }

    /** `osm_sort_member`: the same IDs, now searchable. */
    method Sort()
      modifies this
      ensures multiset(ids) == multiset(old(ids)) && sorted
      ensures State() == SortedIndex(old(State()))
    {
      sorted := true;
    }

    function Lookup(id: int, ext: Externals): (found: bool)
      reads this
      ensures sorted ==> (found <==> id in ids)
    {
      Contains(State(), id, ext)
    }
  }
}

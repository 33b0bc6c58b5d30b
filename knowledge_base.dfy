/**
 * The in-memory part of `knowledge_base.py`: three source lists and a document
 * list that `add_source` and `ingest_document` append to, and the selection
 * that `human_review` makes from the operator's replies.
 */
module Knowledge {
  import opened Seqs
  import opened Text

  /**
   * The reply approves the item: stripped of surrounding whitespace and
   * lower-cased, it is `y`; that is, once stripped it is `y` or `Y`.
   */
  predicate Approves(reply: string): (b: bool)
    ensures b <==> Strip(reply) == "y" || Strip(reply) == "Y"
  {
    LowerIsY(Strip(reply));
    Lower(Strip(reply)) == "y"
  }

  /**
   * The items kept by a review that reads one reply per item and keeps the
   * item when `approves` accepts its reply, in item order.
   */
  function Reviewed<T>(items: seq<T>, replies: seq<string>, approves: string -> bool): (r: seq<T>)
    requires |replies| >= |items|
    ensures |r| <= |items|
    ensures (forall i :: 0 <= i < |items| ==> approves(replies[i])) ==> r == items
    ensures (forall i :: 0 <= i < |items| ==> !approves(replies[i])) ==> r == []
  {
    if items == [] then []
    else
      var n := |items| - 1;
      Reviewed(items[..n], replies, approves) + (if approves(replies[n]) then [items[n]] else [])
  }

  /** Lower-casing gives `y` exactly for `y` and `Y`. */
  lemma LowerIsY(s: string)
    ensures Lower(s) == "y" <==> s == "y" || s == "Y"
  {
    if s == "y" || s == "Y" {
      assert Lower(s) == [LowerChar(s[0])];
    }
    if Lower(s) == "y" {
      assert |s| == 1 && LowerChar(s[0]) == 'y';
      assert s == [s[0]];
    }
  }

  /** The positions the review keeps: exactly those whose reply approves. */
  lemma {:induction false} ReviewedIndices<T>(items: seq<T>, replies: seq<string>, approves: string -> bool)
    returns (idx: seq<int>)
    requires |replies| >= |items|
    ensures PicksAt(Reviewed(items, replies, approves), items, idx)
    ensures forall i :: 0 <= i < |items| ==> (approves(replies[i]) <==> i in idx)
  {
    if items == [] {
      idx := [];
    } else {
      var n := |items| - 1;
      var front, x := items[..n], items[n];
      var r0 := Reviewed(front, replies, approves);
      var keep := approves(replies[n]);
      var idx0 := ReviewedIndices(front, replies, approves);
      idx := PicksSnoc(r0, front, idx0, x, keep);
      assert front + [x] == items;
      assert Reviewed(items, replies, approves) == r0 + (if keep then [x] else []);
      forall i | 0 <= i < |items|
        ensures approves(replies[i]) <==> i in idx
      {
        if i == n {
          assert n == |front|;
        }
      }
    }
  }

  /**
   * The review keeps an order-preserving subsequence of the items: item i is
   * kept iff reply i approves it.
   */
  lemma ReviewedSelectsExactly<T>(items: seq<T>, replies: seq<string>, approves: string -> bool)
    requires |replies| >= |items|
    ensures exists idx ::
      && PicksAt(Reviewed(items, replies, approves), items, idx)
      && (forall i :: 0 <= i < |items| ==> (approves(replies[i]) <==> i in idx))
  {
    var idx := ReviewedIndices(items, replies, approves);
  }

  const TnConstitutionUrl: string := "https://www.capitol.tn.gov/about/docs/tn-constitution.pdf"

  class KnowledgeBase<S, D> {
    var primarySources: seq<S>
    var secondarySources: seq<S>
    var tertiarySources: seq<S>
    var documents: seq<D>

    /** `KnowledgeBase()`: all four lists empty. */
    constructor ()
      ensures primarySources == [] && secondarySources == [] && tertiarySources == [] && documents == []
    {
      primarySources := [];
      secondarySources := [];
      tertiarySources := [];
      documents := [];
    }

    /**
     * `add_source`: appends to the list named by `sourceType`; any other type
     * changes nothing. The documents are never touched.
     */
    method AddSource(sourceType: string, source: S)
      modifies this
      ensures primarySources == old(primarySources) + (if sourceType == "primary" then [source] else [])
      ensures secondarySources == old(secondarySources) + (if sourceType == "secondary" then [source] else [])
      ensures tertiarySources == old(tertiarySources) + (if sourceType == "tertiary" then [source] else [])
      ensures documents == old(documents)
    {
      if sourceType == "primary" {
        primarySources := primarySources + [source];
      } else if sourceType == "secondary" {
        secondarySources := secondarySources + [source];
      } else if sourceType == "tertiary" {
        tertiarySources := tertiarySources + [source];
      }
    }

    /** `ingest_document`: appends the document; the source lists are untouched. */
    method IngestDocument(doc: D)
      modifies this
      ensures documents == old(documents) + [doc]
      ensures primarySources == old(primarySources) && secondarySources == old(secondarySources)
      ensures tertiarySources == old(tertiarySources)
    {
      documents := documents + [doc];
    }

    /** `preprocess`: a placeholder with no effect on the lists. */
    method Preprocess()
      ensures primarySources == old(primarySources) && secondarySources == old(secondarySources)
      ensures tertiarySources == old(tertiarySources) && documents == old(documents)
    {
    }

    /**
     * `human_review`'s selection: `replies[i]` is what the operator typed for
     * `items[i]`; the approved items are returned in their order.
     */
    method HumanReview<T>(items: seq<T>, replies: seq<string>) returns (approved: seq<T>)
      requires |replies| >= |items|
      ensures approved == Reviewed(items, replies, Approves)
    {
      approved := [];
      var i := 0;
      while i < |items|
        invariant 0 <= i <= |items|
        invariant approved == Reviewed(items[..i], replies, Approves)
      {
        assert items[..i + 1][..i] == items[..i];
        if Approves(replies[i]) {
          approved := approved + [items[i]];
        }
        i := i + 1;
      }
      assert items[..|items|] == items;
    }

    /**
     * `fetch_tn_constitution`: no request is made; the result is one record
     * holding the title and the address of the published text.
     */
    function FetchTnConstitution(): (r: seq<map<string, string>>)
      ensures |r| == 1 && r[0].Keys == {"title", "url"}
      ensures r[0]["title"] == "Tennessee Constitution" && r[0]["url"] == TnConstitutionUrl
    {
      [map["title" := "Tennessee Constitution", "url" := TnConstitutionUrl]]
    }
  }
}

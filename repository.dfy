/**
 * `repository.py`: the case and document repositories select records of the
 * knowledge base by ethical tag and by ethical-guideline id, and hand new
 * records to the knowledge base.
 */
module Repository {
  import opened Wrappers
  import opened Seqs

  /**
   * A case or document record. `ethicalTags` and `ethicalGuidelineIds` are
   * `None` when the record has no such key; `fields` holds the rest.
   */
  datatype Record = Record(fields: map<string, string>, ethicalTags: Option<seq<string>>, ethicalGuidelineIds: Option<seq<string>>)

  /**
   * What `kb.list_cases()` and `kb.list_documents()` return at the time of
   * the call; the knowledge base's storage is not part of this model.
   */
  datatype Listing = Listing(cases: seq<Record>, documents: seq<Record>)

  /** A call the repository makes on the knowledge base. */
  datatype KbCall =
    | CreateCase(record: map<string, string>, ethicalTags: Option<seq<string>>, ethicalGuidelineIds: Option<seq<string>>)
    | CreateDocument(record: map<string, string>, ethicalTags: Option<seq<string>>, ethicalGuidelineIds: Option<seq<string>>)

  /** `tag in r.get('ethical_tags', [])`. */
  predicate HasTag(tag: string, r: Record)
  {
    tag in r.ethicalTags.GetOr([])
  }

  /** `guideline in r.get('ethical_guideline_ids', [])`. */
  predicate HasGuideline(guideline: string, r: Record)
  {
    guideline in r.ethicalGuidelineIds.GetOr([])
  }

  function TagFilter(tag: string): Record -> bool
  {
    r => HasTag(tag, r)
  }

  function GuidelineFilter(guideline: string): Record -> bool
  {
    r => HasGuideline(guideline, r)
  }

  /** A record is wanted when it carries every filter that was given. */
  predicate Wanted(ethicalTag: Option<string>, guidelineId: Option<string>, r: Record)
  {
    && (Truthy(ethicalTag) ==> HasTag(ethicalTag.value, r))
    && (Truthy(guidelineId) ==> HasGuideline(guidelineId.value, r))
  }

  function Selection(ethicalTag: Option<string>, guidelineId: Option<string>): Record -> bool
  {
    r => Wanted(ethicalTag, guidelineId, r)
  }

  /**
   * The body shared by `get_cases` and `get_documents`: first keep the records
   * with the tag, then those with the guideline. The result is the single pass
   * that keeps the wanted records.
   */
  function FilterByTags(records: seq<Record>, ethicalTag: Option<string>, guidelineId: Option<string>): (r: seq<Record>)
    ensures r == Filter(records, Selection(ethicalTag, guidelineId))
  {
    var byTag := if Truthy(ethicalTag) then Filter(records, TagFilter(ethicalTag.value)) else records;
    var r := if Truthy(guidelineId) then Filter(byTag, GuidelineFilter(guidelineId.value)) else byTag;
    var wanted := Selection(ethicalTag, guidelineId);
    if Truthy(ethicalTag) && Truthy(guidelineId) then
      FilterFuse(records, TagFilter(ethicalTag.value), GuidelineFilter(guidelineId.value), wanted);
      r
    else if Truthy(ethicalTag) then
      FilterAgrees(records, TagFilter(ethicalTag.value), wanted);
      r
    else if Truthy(guidelineId) then
      FilterAgrees(records, GuidelineFilter(guidelineId.value), wanted);
      r
    else
      FilterKeepsAll(records, wanted);
      r
  }

  /** `CaseRepository.get_cases`. */
  function GetCases(kb: Listing, ethicalTag: Option<string>, guidelineId: Option<string>): (r: seq<Record>)
    ensures r == Filter(kb.cases, Selection(ethicalTag, guidelineId))
  {
    FilterByTags(kb.cases, ethicalTag, guidelineId)
  }

  /** `DocumentRepository.get_documents`. */
  function GetDocuments(kb: Listing, ethicalTag: Option<string>, guidelineId: Option<string>): (r: seq<Record>)
    ensures r == Filter(kb.documents, Selection(ethicalTag, guidelineId))
  {
    FilterByTags(kb.documents, ethicalTag, guidelineId)
  }

  /** Without a truthy tag or guideline, the listing comes back unchanged. */
  lemma NoFilterKeepsListing(records: seq<Record>, ethicalTag: Option<string>, guidelineId: Option<string>)
    requires !Truthy(ethicalTag) && !Truthy(guidelineId)
    ensures FilterByTags(records, ethicalTag, guidelineId) == records
  {
    FilterKeepsAll(records, Selection(ethicalTag, guidelineId));
  }

  /**
   * The result is an order-preserving subsequence of the listing that keeps
   * record i exactly when it carries every given filter.
   */
  lemma SelectsExactlyWanted(records: seq<Record>, ethicalTag: Option<string>, guidelineId: Option<string>)
    ensures exists idx ::
      && PicksAt(FilterByTags(records, ethicalTag, guidelineId), records, idx)
      && (forall i :: 0 <= i < |records| ==> (Wanted(ethicalTag, guidelineId, records[i]) <==> i in idx))
    ensures IsSubsequence(FilterByTags(records, ethicalTag, guidelineId), records)
  {
    var wanted := Selection(ethicalTag, guidelineId);
    FilterPicks(records, wanted);
    var idx :| PicksAt(Filter(records, wanted), records, idx)
      && forall i :: 0 <= i < |records| ==> (wanted(records[i]) <==> i in idx);
    assert forall i :: 0 <= i < |records| ==> (Wanted(ethicalTag, guidelineId, records[i]) <==> i in idx);
    assert PicksAt(FilterByTags(records, ethicalTag, guidelineId), records, idx);
  }

  /** With a truthy tag, every returned record carries it and every record carrying it (and any given guideline) is returned. */
  lemma TagFilterIsExact(records: seq<Record>, ethicalTag: Option<string>, guidelineId: Option<string>, r: Record)
    requires Truthy(ethicalTag)
    ensures r in FilterByTags(records, ethicalTag, guidelineId) <==>
      r in records && HasTag(ethicalTag.value, r) && (Truthy(guidelineId) ==> HasGuideline(guidelineId.value, r))
  {
    FilterMembers(records, Selection(ethicalTag, guidelineId));
  }

  /** Applying the guideline filter before the tag filter gives the same list. */
  lemma FilterOrderIrrelevant(records: seq<Record>, tag: string, guideline: string)
    requires tag != "" && guideline != ""
    ensures FilterByTags(records, Some(tag), Some(guideline))
      == Filter(Filter(records, GuidelineFilter(guideline)), TagFilter(tag))
  {
    FilterCommutes(records, TagFilter(tag), GuidelineFilter(guideline));
  }

  /** Selecting again with the same arguments changes nothing. */
  lemma SelectionIdempotent(records: seq<Record>, ethicalTag: Option<string>, guidelineId: Option<string>)
    ensures FilterByTags(FilterByTags(records, ethicalTag, guidelineId), ethicalTag, guidelineId)
      == FilterByTags(records, ethicalTag, guidelineId)
  {
    FilterIdempotent(records, Selection(ethicalTag, guidelineId));
  }

  /** `CaseRepository.add_case`: the case and its tags go to the knowledge base unchanged. */
  function AddCase(record: map<string, string>, ethicalTags: Option<seq<string>>, ethicalGuidelineIds: Option<seq<string>>): (call: KbCall)
    ensures call.CreateCase?
    ensures call.record == record && call.ethicalTags == ethicalTags && call.ethicalGuidelineIds == ethicalGuidelineIds
  {
    CreateCase(record, ethicalTags, ethicalGuidelineIds)
  }

  /** `DocumentRepository.add_document`: the document and its tags go to the knowledge base unchanged. */
  function AddDocument(record: map<string, string>, ethicalTags: Option<seq<string>>, ethicalGuidelineIds: Option<seq<string>>): (call: KbCall)
    ensures call.CreateDocument?
    ensures call.record == record && call.ethicalTags == ethicalTags && call.ethicalGuidelineIds == ethicalGuidelineIds
  {
    CreateDocument(record, ethicalTags, ethicalGuidelineIds)
  }
}

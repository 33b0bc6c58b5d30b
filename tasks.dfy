/**
 * The bodies of the two background compliance tasks of `tasks.py`, without the
 * task-queue wrapper: checking a batch of payloads, and cross-checking clients
 * against the adverse parties of every case.
 */
module Tasks {
  import opened Wrappers
  import opened Seqs
  import opened EthicalFilter

  /** One entry of the batch result: `{'data': data, 'result': check_ethics(data, ...)}`. */
  datatype BatchEntry = BatchEntry(data: Payload, result: Verdict)

  /** `check_ethics` with the action, user and context of the batch fixed. */
  function Checker(actionType: string, user: Option<User>, context: Option<Context>): Payload -> Verdict
  {
    d => CheckEthics(d, actionType, user, context)
  }

  /** The batch result specified entry by entry: each payload paired with its own verdict, in order. */
  function Batch(dataList: seq<Payload>, check: Payload -> Verdict): (r: seq<BatchEntry>)
    ensures |r| == |dataList|
  {
    if dataList == [] then []
    else
      var n := |dataList| - 1;
      Batch(dataList[..n], check) + [BatchEntry(dataList[n], check(dataList[n]))]
  }

  /** Entry i of the batch holds payload i and the verdict that payload gets on its own. */
  lemma {:induction false} BatchEntries(dataList: seq<Payload>, check: Payload -> Verdict)
    ensures |Batch(dataList, check)| == |dataList|
    ensures forall i :: 0 <= i < |dataList| ==> Batch(dataList, check)[i] == BatchEntry(dataList[i], check(dataList[i]))
  {
    if dataList != [] {
      var n := |dataList| - 1;
      BatchEntries(dataList[..n], check);
      forall i | 0 <= i < n
        ensures dataList[..n][i] == dataList[i]
      {
      }
    }
  }

  /** `ethical_batch_check`: one entry per payload, in order, each holding that payload's verdict. */
  /** The batch of one more payload extends the batch of the payloads before it. */
  lemma BatchStep(dataList: seq<Payload>, check: Payload -> Verdict, i: nat)
    requires i < |dataList|
    ensures Batch(dataList[..i + 1], check) == Batch(dataList[..i], check) + [BatchEntry(dataList[i], check(dataList[i]))]
  {
    assert dataList[..i + 1][..i] == dataList[..i];
  }

  method EthicalBatchCheck(dataList: seq<Payload>, actionType: string, user: Option<User>, context: Option<Context>)
    returns (results: seq<BatchEntry>)
    ensures |results| == |dataList|
    ensures forall i :: 0 <= i < |dataList| ==>
      results[i] == BatchEntry(dataList[i], CheckEthics(dataList[i], actionType, user, context))
  {
    ghost var check := Checker(actionType, user, context);
    results := [];
    var i := 0;
    while i < |dataList|
      invariant 0 <= i <= |dataList|
      invariant results == Batch(dataList[..i], check)
    {
      BatchStep(dataList, check, i);
      var result := CheckEthics(dataList[i], actionType, user, context);
      results := results + [BatchEntry(dataList[i], result)];
      i := i + 1;
    }
    assert dataList[..i] == dataList;
    BatchEntries(dataList, check);
  }

  /** A case as the cross-check reads it: only its `'adverse_parties'` entry, possibly missing. */
  datatype CaseRecord = CaseRecord(adverseParties: Option<seq<string>>)

  /** One reported conflict: `{'client': client, 'result': res, 'explanation': expl}`. */
  datatype Conflict = Conflict(client: Payload, result: Severity, explanation: string)

  function PartiesOf(c: CaseRecord): seq<string>
  {
    c.adverseParties.GetOr([])
  }

  function PartySet(c: CaseRecord): set<string>
  {
    set p | p in PartiesOf(c)
  }

  /** The union of the adverse parties of all cases, a missing entry counting as none. */
  function AdverseUnion(cases: seq<CaseRecord>): (u: set<string>)
    ensures forall p :: p in u <==> exists k :: 0 <= k < |cases| && p in PartiesOf(cases[k])
  {
    if cases == [] then {}
    else
      var front := cases[..|cases| - 1];
      var u0 := AdverseUnion(front);
      assert forall k :: 0 <= k < |front| ==> front[k] == cases[k];
      u0 + PartySet(cases[|cases| - 1])
  }

  /** A client the cross-check reports: a truthy `'client'` value among the adverse parties. */
  predicate IsConflicted(client: Payload, adverse: set<string>)
  {
    Truthy(client.client) && client.client.value in adverse
  }

  function ConflictOf(client: Payload): Conflict
  {
    Conflict(client, Block, ConflictExplanation(client.client.GetOr("")))
  }

  /** The conflicts reported for `clients` against the set `adverse`, in client order. */
  function Conflicts(clients: seq<Payload>, adverse: set<string>): (r: seq<Conflict>)
    ensures |r| <= |clients|
    ensures forall k :: 0 <= k < |r| ==> r[k].result == Block
  {
    var flagged := Filter(clients, c => IsConflicted(c, adverse));
    seq(|flagged|, i requires 0 <= i < |flagged| => ConflictOf(flagged[i]))
  }

  function ClientsOf(conflicts: seq<Conflict>): seq<Payload>
  {
    seq(|conflicts|, i requires 0 <= i < |conflicts| => conflicts[i].client)
  }

  /** The first loop of `ethical_conflict_crosscheck`: the union of every case's adverse parties. */
  method CollectAdverseParties(cases: seq<CaseRecord>) returns (adverse: set<string>)
    ensures adverse == AdverseUnion(cases)
  {
    adverse := {};
    var i := 0;
    while i < |cases|
      invariant 0 <= i <= |cases|
      invariant adverse == AdverseUnion(cases[..i])
    {
      assert cases[..i + 1][..i] == cases[..i];
      adverse := adverse + PartySet(cases[i]);
      i := i + 1;
    }
    assert cases[..|cases|] == cases;
  }

  /**
   * The second loop of `ethical_conflict_crosscheck`: each client is run
   * through the conflict-of-interest check against `listed`, a listing of the
   * adverse set, and the blocked ones are reported in order.
   */
  method FlagConflicts(clients: seq<Payload>, adverse: set<string>, listed: seq<string>) returns (conflicts: seq<Conflict>)
    requires forall p :: p in listed <==> p in adverse
    ensures conflicts == Conflicts(clients, adverse)
  {
    var ctx := Context(Some(listed), None);
    conflicts := [];
    var j := 0;
    while j < |clients|
      invariant 0 <= j <= |clients|
      invariant conflicts == Conflicts(clients[..j], adverse)
    {
      assert clients[..j + 1] == clients[..j] + [clients[j]];
      ConflictsSnoc(clients[..j], clients[j], adverse);
      CrosscheckAgreesWithConflictCheck(clients[j], adverse, listed);
      var f := CheckConflictOfInterest(clients[j], ctx);
      if f.severity != Pass {
        conflicts := conflicts + [Conflict(clients[j], f.severity, f.explanation)];
      }
      j := j + 1;
    }
    assert clients[..|clients|] == clients;
  }

  /** `ethical_conflict_crosscheck`; its unused `user` and `context` parameters are dropped. */
  method EthicalConflictCrosscheck(clients: seq<Payload>, cases: seq<CaseRecord>) returns (conflicts: seq<Conflict>)
    ensures conflicts == Conflicts(clients, AdverseUnion(cases))
  {
    var adverse := CollectAdverseParties(cases);
    var adverseList := SetToSeq(adverse);
    conflicts := FlagConflicts(clients, adverse, adverseList);
  }

  /** One more client at the end adds its conflict, if it has one, at the end. */
  lemma ConflictsSnoc(clients: seq<Payload>, client: Payload, adverse: set<string>)
    ensures Conflicts(clients + [client], adverse)
      == Conflicts(clients, adverse) + (if IsConflicted(client, adverse) then [ConflictOf(client)] else [])
  {
    var flagged := c => IsConflicted(c, adverse);
    FilterSnoc(clients, client, flagged);
    var before, after := Filter(clients, flagged), Filter(clients + [client], flagged);
    var extra := if IsConflicted(client, adverse) then [ConflictOf(client)] else [];
    assert after == before + (if flagged(client) then [client] else []);
    assert |Conflicts(clients + [client], adverse)| == |Conflicts(clients, adverse) + extra|;
    forall k | 0 <= k < |after|
      ensures Conflicts(clients + [client], adverse)[k] == (Conflicts(clients, adverse) + extra)[k]
    {
      if k < |before| {
        assert after[k] == before[k];
      }
    }
  }

  // ---------------------------------------------------------------------------
  // What the reported conflicts are.

  /**
   * The reported clients are an order-preserving subsequence of `clients`, and
   * client i is reported iff its `'client'` value is truthy and adverse.
   */
  lemma ConflictsSelectExactly(clients: seq<Payload>, adverse: set<string>)
    ensures exists idx ::
      && PicksAt(ClientsOf(Conflicts(clients, adverse)), clients, idx)
      && (forall i :: 0 <= i < |clients| ==> (IsConflicted(clients[i], adverse) <==> i in idx))
  {
    var flagged := c => IsConflicted(c, adverse);
    assert ClientsOf(Conflicts(clients, adverse)) == Filter(clients, flagged);
    FilterPicks(clients, flagged);
  }

  /** Every reported conflict blocks, with the explanation of the conflict-of-interest check. */
  lemma ConflictsAllBlock(clients: seq<Payload>, adverse: set<string>)
    ensures forall k :: 0 <= k < |Conflicts(clients, adverse)| ==>
      var c := Conflicts(clients, adverse)[k];
      c.result == Block && IsConflicted(c.client, adverse)
        && c.explanation == ConflictExplanation(c.client.client.value)
  {
    var flagged := c => IsConflicted(c, adverse);
    FilterMembers(clients, flagged);
    forall k | 0 <= k < |Conflicts(clients, adverse)|
      ensures IsConflicted(Conflicts(clients, adverse)[k].client, adverse)
    {
      assert Filter(clients, flagged)[k] in Filter(clients, flagged);
    }
  }

  /** The cross-check's verdict for one client is the conflict check's verdict against any listing of the set. */
  lemma CrosscheckAgreesWithConflictCheck(client: Payload, adverse: set<string>, listed: seq<string>)
    requires forall p :: p in listed <==> p in adverse
    ensures IsConflicted(client, adverse) <==> CheckConflictOfInterest(client, Context(Some(listed), None)).severity == Block
  {
  }

  /** With no cases there are no adverse parties, so nothing is reported. */
  lemma NoCasesNoConflicts(clients: seq<Payload>)
    ensures Conflicts(clients, AdverseUnion([])) == []
  {
    FilterDropsAll(clients, c => IsConflicted(c, AdverseUnion([])));
  }
}

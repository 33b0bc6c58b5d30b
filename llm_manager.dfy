/**
 * The registry of language-model configurations of `llm_manager.py`: a list of
 * `{name, type, path_or_url, is_default}` records with add, remove, set-default,
 * get-default and a connectivity test.
 */
module Llm {
  import opened Wrappers
  import opened Seqs

  /**
   * One configuration. `isDefault` is `None` for a record read from the
   * configuration file without an `'is_default'` key.
   */
  datatype LlmConfig = LlmConfig(name: string, llmType: string, pathOrUrl: string, isDefault: Option<bool>)

  /** `llm.get('is_default')` is truthy. */
  predicate IsDefault(c: LlmConfig)
  {
    c.isDefault == Some(true)
  }

  ghost predicate AtMostOneDefault(llms: seq<LlmConfig>)
  {
    forall i, j :: 0 <= i < j < |llms| && IsDefault(llms[i]) ==> !IsDefault(llms[j])
  }

  ghost predicate UniqueNames(llms: seq<LlmConfig>)
  {
    forall i, j :: 0 <= i < j < |llms| ==> llms[i].name != llms[j].name
  }

  ghost predicate HasName(llms: seq<LlmConfig>, name: string)
  {
    exists i :: 0 <= i < |llms| && llms[i].name == name
  }

  /** Every record with its `'is_default'` set to false; nothing else changes. */
  function ClearDefaults(llms: seq<LlmConfig>): (r: seq<LlmConfig>)
    ensures |r| == |llms|
    ensures forall i :: 0 <= i < |r| ==> r[i].isDefault == Some(false) && r[i].(isDefault := llms[i].isDefault) == llms[i]
    ensures forall i :: 0 <= i < |r| ==> !IsDefault(r[i])
  {
    seq(|llms|, i requires 0 <= i < |llms| => llms[i].(isDefault := Some(false)))
  }

  /** The records that `add_llm` leaves behind. */
  function Added(llms: seq<LlmConfig>, name: string, llmType: string, pathOrUrl: string, isDefault: bool): (r: seq<LlmConfig>)
    ensures |r| == |llms| + 1 && r[|llms|] == LlmConfig(name, llmType, pathOrUrl, Some(isDefault))
    ensures !isDefault ==> r[..|llms|] == llms
    ensures isDefault ==> forall i :: 0 <= i < |llms| ==>
      r[i].isDefault == Some(false) && r[i].(isDefault := llms[i].isDefault) == llms[i]
  {
    (if isDefault then ClearDefaults(llms) else llms) + [LlmConfig(name, llmType, pathOrUrl, Some(isDefault))]
  }

  /** `[llm for llm in llms if llm['name'] != name]`. */
  function WithoutName(llms: seq<LlmConfig>, name: string): (r: seq<LlmConfig>)
    ensures |r| <= |llms|
    ensures forall k :: 0 <= k < |r| ==> r[k].name != name
  {
    Filter(llms, (c: LlmConfig) => c.name != name)
  }

  /**
   * The records after `set_default(name)`: each is the default exactly when it is
   * named `name`; length, order, names, types and paths are unchanged.
   */
  function MarkDefault(llms: seq<LlmConfig>, name: string): (r: seq<LlmConfig>)
    ensures |r| == |llms|
    ensures forall i :: 0 <= i < |r| ==>
      r[i].(isDefault := llms[i].isDefault) == llms[i] && r[i].isDefault == Some(llms[i].name == name)
    ensures forall i :: 0 <= i < |r| ==> (IsDefault(r[i]) <==> llms[i].name == name)
  {
    seq(|llms|, i requires 0 <= i < |llms| => llms[i].(isDefault := Some(llms[i].name == name)))
  }

  /** The first record whose `'is_default'` is truthy. */
  function FirstDefault(llms: seq<LlmConfig>): (r: Option<nat>)
    ensures r.Some? ==> r.value < |llms| && IsDefault(llms[r.value])
    ensures r.Some? ==> forall j :: 0 <= j < r.value ==> !IsDefault(llms[j])
    ensures r.None? <==> forall j :: 0 <= j < |llms| ==> !IsDefault(llms[j])
  {
    if llms == [] then None
    else if IsDefault(llms[0]) then Some(0)
    else match FirstDefault(llms[1..])
      case None => None
      case Some(k) => Some(k + 1)
  }

  /** Position of `next((l for l in llms if l['name'] == name), None)`. */
  function FindByName(llms: seq<LlmConfig>, name: string): (r: Option<nat>)
    ensures r.Some? ==> r.value < |llms| && llms[r.value].name == name
    ensures r.Some? ==> forall j :: 0 <= j < r.value ==> llms[j].name != name
    ensures r.None? <==> !HasName(llms, name)
  {
    if llms == [] then None
    else if llms[0].name == name then Some(0)
    else match FindByName(llms[1..], name)
      case None => None
      case Some(k) => Some(k + 1)
  }

  // ---------------------------------------------------------------------------
  // What the operations keep.

  /** Dropping records (keeping the others in order) keeps "at most one default" and unique names. */
  lemma SubsequenceKeepsInvariant(r: seq<LlmConfig>, llms: seq<LlmConfig>, idx: seq<int>)
    requires PicksAt(r, llms, idx)
    ensures AtMostOneDefault(llms) ==> AtMostOneDefault(r)
    ensures UniqueNames(llms) ==> UniqueNames(r)
  {
    forall i, j | 0 <= i < j < |r|
      ensures r[i] == llms[idx[i]] && r[j] == llms[idx[j]] && idx[i] < idx[j]
    {
    }
  }

  /**
   * After `remove_llm(name)` no record has that name, the others keep their
   * order, a second removal changes nothing, and the invariants survive.
   */
  lemma RemoveLlmSpec(llms: seq<LlmConfig>, name: string)
    ensures !HasName(WithoutName(llms, name), name)
    ensures IsSubsequence(WithoutName(llms, name), llms)
    ensures WithoutName(WithoutName(llms, name), name) == WithoutName(llms, name)
    ensures AtMostOneDefault(llms) ==> AtMostOneDefault(WithoutName(llms, name))
    ensures UniqueNames(llms) ==> UniqueNames(WithoutName(llms, name))
  {
    var keep := (c: LlmConfig) => c.name != name;
    var r := Filter(llms, keep);
    FilterMembers(llms, keep);
    forall i | 0 <= i < |r|
      ensures r[i].name != name
    {
      assert r[i] in Filter(llms, keep);
    }
    FilterPicks(llms, keep);
    var idx :| PicksAt(r, llms, idx);
    SubsequenceKeepsInvariant(r, llms, idx);
    FilterIdempotent(llms, keep);
  }

  /**
   * After `set_default(name)`: an unknown name leaves no default; with unique
   * names there is at most one default, and a known name is then the one
   * `get_default` finds.
   */
  lemma SetDefaultSpec(llms: seq<LlmConfig>, name: string)
    ensures !HasName(llms, name) ==> FirstDefault(MarkDefault(llms, name)).None?
    ensures UniqueNames(llms) ==> AtMostOneDefault(MarkDefault(llms, name))
    ensures UniqueNames(llms) && HasName(llms, name) ==>
      FirstDefault(MarkDefault(llms, name)) == FindByName(llms, name)
  {
    var r := MarkDefault(llms, name);
    if UniqueNames(llms) && HasName(llms, name) {
      var k := FindByName(llms, name).value;
      assert forall j :: 0 <= j < |r| ==> (IsDefault(r[j]) <==> j == k);
    }
  }

  /** Names must be unique for that: two records sharing the name both become default. */
  lemma DuplicateNamesGiveTwoDefaults()
    ensures var llms := [LlmConfig("m", "api", "https://a", None), LlmConfig("m", "local", "/b", None)];
      !AtMostOneDefault(MarkDefault(llms, "m"))
  {
    var llms := [LlmConfig("m", "api", "https://a", None), LlmConfig("m", "local", "/b", None)];
    assert IsDefault(MarkDefault(llms, "m")[0]) && IsDefault(MarkDefault(llms, "m")[1]);
  }

  /** The mutating operations of the registry, for reasoning about sequences of them. */
  datatype LlmOp =
    | Add(name: string, llmType: string, pathOrUrl: string, isDefault: bool)
    | Remove(name: string)
    | MakeDefault(name: string)

  function Apply(llms: seq<LlmConfig>, op: LlmOp): seq<LlmConfig>
  {
    match op
    case Add(n, t, p, d) => Added(llms, n, t, p, d)
    case Remove(n) => WithoutName(llms, n)
    case MakeDefault(n) => MarkDefault(llms, n)
  }

  function Run(llms: seq<LlmConfig>, ops: seq<LlmOp>): seq<LlmConfig>
    decreases |ops|
  {
    if ops == [] then llms else Run(Apply(llms, ops[0]), ops[1..])
  }

  /** Every `add_llm` in `ops` uses a name that is not registered at that point. */
  ghost predicate FreshAdds(llms: seq<LlmConfig>, ops: seq<LlmOp>)
    decreases |ops|
  {
    ops == [] || ((ops[0].Add? ==> !HasName(llms, ops[0].name)) && FreshAdds(Apply(llms, ops[0]), ops[1..]))
  }

  /** One operation keeps both invariants (an added name being fresh). */
  lemma ApplyKeepsInvariant(llms: seq<LlmConfig>, op: LlmOp)
    requires AtMostOneDefault(llms) && UniqueNames(llms)
    requires op.Add? ==> !HasName(llms, op.name)
    ensures AtMostOneDefault(Apply(llms, op)) && UniqueNames(Apply(llms, op))
  {
    match op
    case Add(n, t, p, d) =>
      var r := Added(llms, n, t, p, d);
      forall i, j | 0 <= i < j < |r|
        ensures r[i].name != r[j].name
      {
        if j == |llms| {
          assert r[i].name == llms[i].name;
        }
      }
    case Remove(n) => RemoveLlmSpec(llms, n);
    case MakeDefault(n) => SetDefaultSpec(llms, n);
  }

  /**
   * "At most one default" holds after any sequence of add, remove and
   * set-default operations, as long as every added name is new.
   */
  lemma {:induction false} RegistryInvariant(llms: seq<LlmConfig>, ops: seq<LlmOp>)
    requires AtMostOneDefault(llms) && UniqueNames(llms) && FreshAdds(llms, ops)
    ensures AtMostOneDefault(Run(llms, ops)) && UniqueNames(Run(llms, ops))
    decreases |ops|
  {
    if ops != [] {
      ApplyKeepsInvariant(llms, ops[0]);
      RegistryInvariant(Apply(llms, ops[0]), ops[1..]);
    }
  }

  /** The registry: the list of configurations, held in memory. */
  class LlmManager {
    var llms: seq<LlmConfig>

    /**
     * `LLMManager(config_path)`: the records parsed from the configuration file,
     * or none when the file does not exist.
     */
    constructor (stored: Option<seq<LlmConfig>>)
      ensures llms == stored.GetOr([])
    {
      llms := stored.GetOr([]);
    }

    /** `add_llm`: appends the new record; a new default first clears the others' flags. */
    method AddLlm(name: string, llmType: string, pathOrUrl: string, isDefault: bool)
      modifies this
      ensures llms == Added(old(llms), name, llmType, pathOrUrl, isDefault)
      ensures AtMostOneDefault(old(llms)) ==> AtMostOneDefault(llms)
      ensures isDefault ==> forall i :: 0 <= i < |llms| ==> (IsDefault(llms[i]) <==> i == |llms| - 1)
    {
      if isDefault {
        var i := 0;
        while i < |llms|
          invariant 0 <= i <= |llms| == |old(llms)|
          invariant forall k :: 0 <= k < i ==> llms[k] == old(llms)[k].(isDefault := Some(false))
          invariant forall k :: i <= k < |llms| ==> llms[k] == old(llms)[k]
        {
          llms := llms[i := llms[i].(isDefault := Some(false))];
          i := i + 1;
        }
      }
      llms := llms + [LlmConfig(name, llmType, pathOrUrl, Some(isDefault))];
    }

    /** `remove_llm`: keeps, in order, the records with another name. */
    method RemoveLlm(name: string)
      modifies this
      ensures llms == WithoutName(old(llms), name)
    {
      llms := WithoutName(llms, name);
    }

    /** `set_default`: marks exactly the records named `name`; reports whether there was one. */
    method SetDefault(name: string) returns (found: bool)
      modifies this
      ensures llms == MarkDefault(old(llms), name)
      ensures found <==> HasName(old(llms), name)
    {
      found := false;
      var i := 0;
      while i < |llms|
        invariant 0 <= i <= |llms| == |old(llms)|
        invariant forall k :: 0 <= k < i ==> llms[k] == old(llms)[k].(isDefault := Some(old(llms)[k].name == name))
        invariant forall k :: i <= k < |llms| ==> llms[k] == old(llms)[k]
        invariant found <==> exists k :: 0 <= k < i && old(llms)[k].name == name
      {
        llms := llms[i := llms[i].(isDefault := Some(llms[i].name == name))];
        if llms[i].isDefault == Some(true) {
          found := true;
        }
        i := i + 1;
      }
    }

    /** `get_default`: the first record whose `'is_default'` is truthy, or `None`. */
    method GetDefault() returns (r: Option<LlmConfig>)
      ensures r.Some? ==> exists i :: 0 <= i < |llms| && llms[i] == r.value && IsDefault(r.value)
                                      && (forall j :: 0 <= j < i ==> !IsDefault(llms[j]))
      ensures r.None? <==> forall j :: 0 <= j < |llms| ==> !IsDefault(llms[j])
    {
      var i := 0;
      while i < |llms|
        invariant 0 <= i <= |llms|
        invariant forall j :: 0 <= j < i ==> !IsDefault(llms[j])
      {
        if IsDefault(llms[i]) {
          return Some(llms[i]);
        }
        i := i + 1;
      }
      return None;
    }

    /**
     * `test_llm`: `(False, 'Not found')` for an unknown name; for the first record
     * with that name, `(True, ...)` for type `api`, the path check for type
     * `local`, and `(False, 'Unknown type')` for any other type.
     */
    function TestLlm(name: string, pathExists: string -> bool): (r: (bool, string))
      reads this
      ensures !HasName(llms, name) ==> r == (false, "Not found")
      ensures HasName(llms, name) ==>
        exists i :: 0 <= i < |llms| && llms[i].name == name && (forall j :: 0 <= j < i ==> llms[j].name != name)
          && r == match llms[i].llmType
                  case "api" => (true, "API endpoint test not implemented")
                  case "local" => (pathExists(llms[i].pathOrUrl), "Local model path check")
                  case _ => (false, "Unknown type")
    {
      match FindByName(llms, name)
      case None => (false, "Not found")
      case Some(i) =>
        var llm := llms[i];
        if llm.llmType == "api" then (true, "API endpoint test not implemented")
        else if llm.llmType == "local" then (pathExists(llm.pathOrUrl), "Local model path check")
        else (false, "Unknown type")
    }
  }
}

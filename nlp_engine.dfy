/**
 * `nlp_engine.py`: `legal_tokenize` is Python's `str.split()` with no
 * argument; the other operations are placeholders returning constants.
 */
module Nlp {
  import opened Text

  /** A token of `str.split()`: non-empty and free of whitespace. */
  predicate IsToken(t: string)
  {
    t != [] && forall i :: 0 <= i < |t| ==> !IsSpace(t[i])
  }

  /** Length of the run of non-whitespace characters that `s` starts with. */
  function WordLen(s: string): (n: nat)
    ensures n <= |s|
    ensures forall k :: 0 <= k < n ==> !IsSpace(s[k])
    ensures n == |s| || IsSpace(s[n])
  {
    if s == [] || IsSpace(s[0]) then 0 else 1 + WordLen(s[1..])
  }

  /** `s.split()`: the maximal runs of non-whitespace characters of `s`, in order. */
  function Split(s: string): (tokens: seq<string>)
    ensures forall k :: 0 <= k < |tokens| ==> IsToken(tokens[k])
    decreases |s|
  {
    if s == [] then []
    else if IsSpace(s[0]) then Split(s[1..])
    else
      var n := WordLen(s);
      [s[..n]] + Split(s[n..])
  }

  /** `" ".join(tokens)`. */
  function Join(tokens: seq<string>): (s: string)
    ensures tokens != [] ==> |tokens[0]| <= |s| && s[..|tokens[0]|] == tokens[0]
  {
    if tokens == [] then ""
    else if |tokens| == 1 then tokens[0]
    else tokens[0] + " " + Join(tokens[1..])
  }

  /**
   * The normal form of whitespace: every whitespace character is a single
   * space that sits between two non-whitespace characters.
   */
  predicate Normalized(s: string)
  {
    forall i :: 0 <= i < |s| && IsSpace(s[i]) ==> s[i] == ' ' && 0 < i < |s| - 1 && !IsSpace(s[i + 1])
  }

  /** `legal_tokenize`: Python's whitespace split of the text. */
  function LegalTokenize(text: string): (tokens: seq<string>)
    ensures forall k :: 0 <= k < |tokens| ==> IsToken(tokens[k])
  {
    Split(text)
  }

  /** A word that is followed by the end of the string or by whitespace keeps its length when more text is appended. */
  lemma {:induction false} WordLenAppend(a: string, c: string)
    requires WordLen(a) < |a| || (c != [] && IsSpace(c[0]))
    ensures WordLen(a + c) == WordLen(a)
    decreases |a|
  {
    if a == [] {
    } else if IsSpace(a[0]) {
    } else {
      assert (a + c)[1..] == a[1..] + c;
      WordLenAppend(a[1..], c);
    }
  }

  /** Leading whitespace contributes no tokens. */
  lemma {:induction false} SplitSkipsSpaces(w: string, b: string)
    requires AllSpace(w)
    ensures Split(w + b) == Split(b)
    decreases |w|
  {
    if w != [] {
      assert (w + b)[0] == w[0];
      assert (w + b)[1..] == w[1..] + b;
      SplitSkipsSpaces(w[1..], b);
    } else {
      assert w + b == b;
    }
  }

  /** Empty or all-whitespace input yields no tokens. */
  lemma AllSpaceSplitsToNothing(w: string)
    requires AllSpace(w)
    ensures Split(w) == []
  {
    SplitSkipsSpaces(w, "");
    assert w + "" == w;
  }

  /** A single token splits to itself. */
  lemma SplitToken(t: string)
    requires IsToken(t)
    ensures Split(t) == [t]
  {
    WordLenAll(t);
    assert t[..|t|] == t;
  }

  lemma {:induction false} WordLenAll(t: string)
    requires forall i :: 0 <= i < |t| ==> !IsSpace(t[i])
    ensures WordLen(t) == |t|
    decreases |t|
  {
    if t != [] {
      WordLenAll(t[1..]);
    }
  }

  /**
   * A non-empty whitespace run separates: what lies before and after it is
   * tokenized independently.
   */
  lemma {:induction false} SplitSeparates(a: string, w: string, b: string)
    requires w != [] && AllSpace(w)
    ensures Split(a + w + b) == Split(a) + Split(b)
    decreases |a|
  {
    var s := a + w + b;
    if a == [] {
      assert s == w + b;
      SplitSkipsSpaces(w, b);
    } else if IsSpace(a[0]) {
      assert s[1..] == a[1..] + w + b;
      SplitSeparates(a[1..], w, b);
    } else {
      var n := WordLen(a);
      WordLenAppend(a, w + b);
      assert s == a + (w + b);
      assert WordLen(s) == n;
      assert s[..n] == a[..n];
      assert s[n..] == a[n..] + w + b;
      SplitSeparates(a[n..], w, b);
    }
  }

  /** Splitting undoes joining with single spaces, for any list of tokens. */
  lemma {:induction false} SplitJoin(tokens: seq<string>)
    requires forall k :: 0 <= k < |tokens| ==> IsToken(tokens[k])
    ensures Split(Join(tokens)) == tokens
  {
    if tokens == [] {
    } else if |tokens| == 1 {
      SplitToken(tokens[0]);
    } else {
      SplitJoin(tokens[1..]);
      SplitToken(tokens[0]);
      SplitSeparates(tokens[0], " ", Join(tokens[1..]));
    }
  }

  /** Joining tokens with single spaces yields a normalized string. */
  lemma {:induction false} JoinNormalized(tokens: seq<string>)
    requires forall k :: 0 <= k < |tokens| ==> IsToken(tokens[k])
    ensures Normalized(Join(tokens))
  {
    if |tokens| > 1 {
      var t, rest := tokens[0], tokens[1..];
      var j := Join(rest);
      JoinNormalized(rest);
      var s := Join(tokens);
      assert s == t + " " + j;
      assert j[0] == rest[0][0];
      forall i | 0 <= i < |s| && IsSpace(s[i])
        ensures s[i] == ' ' && 0 < i < |s| - 1 && !IsSpace(s[i + 1])
      {
        if i > |t| {
          assert s[i] == j[i - |t| - 1];
          assert s[i + 1] == j[i - |t|];
        }
      }
    }
  }

  /** A normalized string is exactly the single-space join of its own tokens. */
  lemma {:induction false} NormalizedIsJoinOfSplit(s: string)
    requires Normalized(s)
    ensures Join(Split(s)) == s
    decreases |s|
  {
    if s != [] {
      var n := WordLen(s);
      if n < |s| {
        var rest := s[n + 1..];
        assert rest[0] == s[n + 1];
        forall k | 0 <= k < |rest| && IsSpace(rest[k])
          ensures rest[k] == ' ' && 0 < k < |rest| - 1 && !IsSpace(rest[k + 1])
        {
          assert rest[k] == s[n + 1 + k];
        }
        NormalizedIsJoinOfSplit(rest);
        assert s[n..][1..] == rest;
        assert Split(s[n..]) == Split(rest);
        assert Split(rest) != [];
        assert s == s[..n] + " " + rest;
      } else {
        assert s[n..] == [];
        assert s[..n] == s;
      }
    }
  }

  /**
   * Joining the tokens with single spaces gives the input with surrounding
   * whitespace dropped and inner whitespace runs collapsed to one space: the
   * one normalized string with the same tokens.
   */
  lemma TokenizeNormalForm(text: string)
    ensures Normalized(Join(LegalTokenize(text)))
    ensures LegalTokenize(Join(LegalTokenize(text))) == LegalTokenize(text)
    ensures forall u :: Normalized(u) && LegalTokenize(u) == LegalTokenize(text) ==> u == Join(LegalTokenize(text))
  {
    JoinNormalized(Split(text));
    SplitJoin(Split(text));
    forall u | Normalized(u) && LegalTokenize(u) == LegalTokenize(text)
      ensures u == Join(LegalTokenize(text))
    {
      NormalizedIsJoinOfSplit(u);
    }
  }

  /** The citation of the unit test splits into its four whitespace-separated words. */
  lemma TokenizeCitation()
    ensures LegalTokenize("Tennessee v. Smith, 2020") == ["Tennessee", "v.", "Smith,", "2020"]
  {
    var tokens := ["Tennessee", "v.", "Smith,", "2020"];
    assert Join(tokens) == "Tennessee v. Smith, 2020";
    SplitJoin(tokens);
  }

  /** `named_entity_recognition`: a placeholder that finds no entities. */
  function NamedEntityRecognition(text: string): (entities: seq<string>)
    ensures entities == []
  {
    []
  }

  /** `parse_sentence`: a placeholder that produces an empty parse. */
  function ParseSentence(text: string): (parse: map<string, string>)
    ensures parse == map[]
  {
    map[]
  }

  /** `intent_recognition`: a placeholder that classifies every question as unknown. */
  function IntentRecognition(question: string): (intent: string)
    ensures intent == "unknown"
  {
    "unknown"
  }

  /** `query_expansion`: a placeholder that returns the question alone. */
  function QueryExpansion(question: string): (queries: seq<string>)
    ensures queries == [question]
  {
    [question]
  }

  /** `generate_answer`: a placeholder with a fixed reply. */
  function GenerateAnswer(context: string, question: string): (answer: string)
    ensures answer == "[Answer generation not implemented]"
  {
    "[Answer generation not implemented]"
  }
}

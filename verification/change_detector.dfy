/** `QueryChangeDetectorLLM`: decides whether a new query should create a new
    test-plan version. It keeps the last query of every session in the
    module-level `LAST_QUERY_CACHE`, honours "don't save" instructions, and
    otherwise asks a language model whether the query changed substantially.
    The model is an oracle: `llm(last, current)` is its answer text, or
    `None` when the call raises. */
module ChangeDetector {
  import opened Wrappers
  import opened Text

  const UNKNOWN_SESSION: string := "unknown_session"

  const NO_SAVE_PHRASES: seq<string> := [
    "don't save", "do not save", "dont save",
    "no save", "don't store", "do not store",
    "dont store", "no store", "don't record",
    "do not record", "dont record", "no record"
  ]

  /** The cache key: `str(session_id).strip().lower()`, with a missing id
      replaced by "unknown_session". */
  function SessionKey(sessionId: Option<string>): string {
    Lower(Strip(sessionId.GetOr(UNKNOWN_SESSION)))
  }

  /** `_user_requested_no_save`: some phrase occurs in the lower-cased
      query. */
  predicate UserRequestedNoSave(query: string) {
    exists i :: 0 <= i < |NO_SAVE_PHRASES| && Contains(Lower(query), NO_SAVE_PHRASES[i])
  }

  /** `_llm_decide_major_change` given the oracle's answer: a failed call is
      "no change"; otherwise the stripped, upper-cased answer must start
      with "YES". */
  predicate LlmDecideMajorChange(answer: Option<string>) {
    answer.Some? && StartsWith(Upper(Strip(answer.value)), "YES")
  }

  /** Whether a session with cache `cache` should save a version for
      `query`: never after a no-save instruction, always when the session has
      no (non-empty) previous query, otherwise as the language model
      decides. */
  predicate Decision(cache: map<string, string>, key: string, query: string, llm: (string, string) -> Option<string>) {
    if UserRequestedNoSave(query) then false
    else if key !in cache || cache[key] == "" then true
    else LlmDecideMajorChange(llm(cache[key], query))
  }

  /** The language model is consulted only when there is no no-save
      instruction and the session has a non-empty previous query. */
  predicate AsksLlm(cache: map<string, string>, key: string, query: string) {
    !UserRequestedNoSave(query) && key in cache && cache[key] != ""
  }

  class QueryChangeDetector {
    /** `LAST_QUERY_CACHE` */
    var lastQueryCache: map<string, string>
    /** The (last, current) pairs the language model was asked about. */
    ghost var llmCalls: seq<(string, string)>

    constructor()
      ensures lastQueryCache == map[]
      ensures llmCalls == []
    {
      lastQueryCache := map[];
      llmCalls := [];
    }

    /** `should_save_version` */
    method ShouldSaveVersion(currentQuery: string, sessionId: Option<string>, llm: (string, string) -> Option<string>)
      returns (isMajor: bool)
      modifies this
      ensures lastQueryCache == old(lastQueryCache)[SessionKey(sessionId) := currentQuery]
      ensures isMajor == Decision(old(lastQueryCache), SessionKey(sessionId), currentQuery, llm)
      ensures llmCalls == old(llmCalls) +
                if AsksLlm(old(lastQueryCache), SessionKey(sessionId), currentQuery)
                then [(old(lastQueryCache)[SessionKey(sessionId)], currentQuery)] else []
    {
      var sessionIdStr := SessionKey(sessionId);
      isMajor := ShouldSaveForKey(currentQuery, sessionIdStr, llm);
    }

    /** The body of `should_save_version` once the cache key is computed. */
    method ShouldSaveForKey(currentQuery: string, key: string, llm: (string, string) -> Option<string>)
      returns (isMajor: bool)
      modifies this
      ensures lastQueryCache == old(lastQueryCache)[key := currentQuery]
      ensures isMajor == Decision(old(lastQueryCache), key, currentQuery, llm)
      ensures llmCalls == old(llmCalls) +
                if AsksLlm(old(lastQueryCache), key, currentQuery) then [(old(lastQueryCache)[key], currentQuery)] else []
    {
      if UserRequestedNoSave(currentQuery) {
        lastQueryCache := lastQueryCache[key := currentQuery];
        return false;
      }
      var lastQuery := if key in lastQueryCache then Some(lastQueryCache[key]) else None;
      if lastQuery.Some? && lastQuery.value != "" {
        isMajor := LlmDecideMajorChange(llm(lastQuery.value, currentQuery));
        llmCalls := llmCalls + [(lastQuery.value, currentQuery)];
      } else {
        isMajor := true;
      }
      lastQueryCache := lastQueryCache[key := currentQuery];
    }
  }

  /** A query that contains a no-save phrase, in any letter case and
      anywhere, suppresses saving. */
  lemma NoSavePhraseAnywhere(before: string, phrase: string, after: string, i: int)
    requires 0 <= i < |NO_SAVE_PHRASES| && Lower(phrase) == NO_SAVE_PHRASES[i]
    ensures UserRequestedNoSave(before + phrase + after)
  {
    LowerConcat(before + phrase, after);
    LowerConcat(before, phrase);
    ContainsInfix(Lower(before), NO_SAVE_PHRASES[i], Lower(after));
  }

  /** The phrase check ignores letter case. */
  lemma NoSaveIgnoresCase(query: string)
    ensures UserRequestedNoSave(Lower(query)) <==> UserRequestedNoSave(query)
  {
    LowerIdempotent(query);
  }

  /** The answer counts as "major" exactly when, after stripping, its first
      three characters spell "yes" in any case. */
  lemma LlmDecisionSpec(answer: Option<string>)
    ensures answer.None? ==> !LlmDecideMajorChange(answer)
    ensures answer.Some? ==>
              var t := Strip(answer.value);
              LlmDecideMajorChange(answer) <==>
                |t| >= 3 && (t[0] == 'y' || t[0] == 'Y') && (t[1] == 'e' || t[1] == 'E') && (t[2] == 's' || t[2] == 'S')
  {
    if answer.Some? {
      UpperStartsWithYes(Strip(answer.value));
    }
  }

  lemma UpperStartsWithYes(t: string)
    ensures StartsWith(Upper(t), "YES") <==>
              |t| >= 3 && (t[0] == 'y' || t[0] == 'Y') && (t[1] == 'e' || t[1] == 'E') && (t[2] == 's' || t[2] == 'S')
  {
    var u := Upper(t);
    if |t| >= 3 {
      assert StartsWith(u, "YES") <==> u[0] == 'Y' && u[1] == 'E' && u[2] == 'S';
      assert u[0] == UpperChar(t[0]) && u[1] == UpperChar(t[1]) && u[2] == UpperChar(t[2]);
    } else {
      assert !StartsWith(u, "YES");
    }
  }

  /** Normalising a session key again changes nothing, so a key already in
      normal form addresses the same cache entry. */
  lemma SessionKeyNormal(sessionId: Option<string>)
    ensures SessionKey(Some(SessionKey(sessionId))) == SessionKey(sessionId)
  {
    var s := Strip(sessionId.GetOr(UNKNOWN_SESSION));
    StripIdempotent(sessionId.GetOr(UNKNOWN_SESSION));
    LowerKeepsSpaces(s);
    StripUnpadded(Lower(s));
    LowerIdempotent(s);
  }
}

/**
  The vocabulary that tells a failure which proves that nothing was printed from a
  failure whose physical outcome is unknown.  The same five markers are listed by the
  gateway, by the agent's transports and by the agent's ledger; they are written once here.
 */
module Markers {

  const AGENT_EXECUTION_TIMEOUT := "AGENT_EXECUTION_TIMEOUT"
  const AGENT_RESTART_DURING_PRINT := "AGENT_RESTART_DURING_PRINT"
  const JOB_EXPIRED_DURING_PRINT := "JOB_EXPIRED_DURING_PRINT"
  const UNKNOWN_PARTIAL_DELIVERY := "UNKNOWN_PARTIAL_DELIVERY"
  const UNKNOWN_SUBMISSION_OUTCOME := "UNKNOWN_SUBMISSION_OUTCOME"

  const OUTCOME_MARKERS: seq<string> := [
    AGENT_EXECUTION_TIMEOUT,
    AGENT_RESTART_DURING_PRINT,
    JOB_EXPIRED_DURING_PRINT,
    UNKNOWN_PARTIAL_DELIVERY,
    UNKNOWN_SUBMISSION_OUTCOME
  ]

  predicate HasUnknownOutcomeMarker(msg: string) {
    exists i :: 0 <= i < |OUTCOME_MARKERS| && OUTCOME_MARKERS[i] <= msg
  }

  /** Any text that goes on after one of the markers carries a marker. */
  lemma MarkedByPrefix(i: nat, rest: string)
    requires i < |OUTCOME_MARKERS|
    ensures HasUnknownOutcomeMarker(OUTCOME_MARKERS[i] + rest)
  {
    assert OUTCOME_MARKERS[i] <= OUTCOME_MARKERS[i] + rest;
  }

  /** Every marker starts with one of the capitals A, J and U, so any other text is unmarked. */
  lemma UnmarkedByFirstChar(msg: string)
    requires msg == "" || (msg[0] != 'A' && msg[0] != 'J' && msg[0] != 'U')
    ensures !HasUnknownOutcomeMarker(msg)
  {
    forall i | 0 <= i < |OUTCOME_MARKERS|
      ensures !(OUTCOME_MARKERS[i] <= msg)
    {
      assert OUTCOME_MARKERS[i][0] in {'A', 'J', 'U'};
    }
  }

  // ---------------------------------------------------------------- errors of the agent

  /** A Go error: its text, and whether ErrOutcomeUnknown is somewhere in its wrap chain. */
  datatype GoError = GoError(msg: string, wrapsUnknown: bool)

  /** Prefixes a message unless it already carries a marker. */
  function MarkUnknown(msg: string): (e: GoError)
    ensures OutcomeUnknown(e) && HasUnknownOutcomeMarker(e.msg)
  {
    if HasUnknownOutcomeMarker(msg) then
      GoError(msg, false)
    else
      MarkedByPrefix(3, ": " + msg);
      assert UNKNOWN_PARTIAL_DELIVERY + (": " + msg) == UNKNOWN_PARTIAL_DELIVERY + ": " + msg;
      GoError(UNKNOWN_PARTIAL_DELIVERY + ": " + msg, true)
  }

  /** fmt.Errorf without a wrapped sentinel. */
  function PlainError(msg: string): GoError {
    GoError(msg, false)
  }

  predicate OutcomeUnknown(e: GoError) {
    e.wrapsUnknown || HasUnknownOutcomeMarker(e.msg)
  }

  /**
    The text processJob stores and reports for a failed print: the marker is put back when
    it was lost on the way up.
   */
  function FailureMessage(e: GoError): string {
    if OutcomeUnknown(e) && !HasUnknownOutcomeMarker(e.msg) then UNKNOWN_PARTIAL_DELIVERY + ": " + e.msg else e.msg
  }

  /** The restored text is marked exactly when the transport proved ambiguity. */
  lemma FailureMessageKeepsAmbiguity(e: GoError)
    ensures HasUnknownOutcomeMarker(FailureMessage(e)) <==> OutcomeUnknown(e)
  {
    if e.wrapsUnknown && !HasUnknownOutcomeMarker(e.msg) {
      MarkedByPrefix(3, ": " + e.msg);
      assert UNKNOWN_PARTIAL_DELIVERY + (": " + e.msg) == UNKNOWN_PARTIAL_DELIVERY + ": " + e.msg;
    }
  }

  // ---------------------------------------------------------------- SQL LIKE

  /** SQLite's LIKE folds the ASCII letters only. */
  function FoldAscii(c: char): char {
    if 'a' <= c <= 'z' then (c as int - 32) as char else c
  }

  predicate LikeChar(p: char, c: char) {
    p == '_' || FoldAscii(p) == FoldAscii(c)
  }

  predicate Like(pattern: string, s: string)
    decreases |pattern|
  {
    if pattern == "" then s == ""
    else if pattern[0] == '%' then exists k :: 0 <= k <= |s| && Like(pattern[1..], s[k..])
    else s != "" && LikeChar(pattern[0], s[0]) && Like(pattern[1..], s[1..])
  }

  /** What `LIKE 'm%'` really tests: the first |m| characters, with `_` as a wildcard and case ignored. */
  predicate LikePrefix(m: string, s: string) {
    |m| <= |s| && forall i :: 0 <= i < |m| ==> LikeChar(m[i], s[i])
  }

  lemma {:induction false} LikePrefixMeaning(m: string, s: string)
    requires '%' !in m
    ensures Like(m + "%", s) <==> LikePrefix(m, s)
    decreases |m|
  {
    if m == "" {
      assert m + "%" == "%";
      assert "%"[1..] == "" && s[|s|..] == "";
      assert Like("", s[|s|..]);
    } else {
      var p := m + "%";
      assert p[0] == m[0] && p[1..] == m[1..] + "%";
      if s != "" {
        LikePrefixMeaning(m[1..], s[1..]);
        if LikePrefix(m, s) {
          forall i | 0 <= i < |m[1..]|
            ensures LikeChar(m[1..][i], s[1..][i])
          {
            assert m[1..][i] == m[i + 1] && s[1..][i] == s[i + 1];
          }
        }
        if LikeChar(m[0], s[0]) && LikePrefix(m[1..], s[1..]) {
          forall i | 0 <= i < |m|
            ensures LikeChar(m[i], s[i])
          {
            if i > 0 {
              assert m[1..][i - 1] == m[i] && s[1..][i - 1] == s[i];
            }
          }
        }
      }
    }
  }

  /** The predicate unknownMarkerSQL builds: an OR of `last_error LIKE '<marker>%'`. */
  predicate UnknownMarkerSql(lastError: string) {
    exists i :: 0 <= i < |OUTCOME_MARKERS| && Like(OUTCOME_MARKERS[i] + "%", lastError)
  }

  lemma NoPercentInMarkers(i: nat)
    requires i < |OUTCOME_MARKERS|
    ensures '%' !in OUTCOME_MARKERS[i]
  {}

  /** Marker prefix implies the SQL match, for every text. */
  lemma MarkerImpliesSql(msg: string)
    requires HasUnknownOutcomeMarker(msg)
    ensures UnknownMarkerSql(msg)
  {
    var i :| 0 <= i < |OUTCOME_MARKERS| && OUTCOME_MARKERS[i] <= msg;
    NoPercentInMarkers(i);
    LikePrefixMeaning(OUTCOME_MARKERS[i], msg);
    forall k | 0 <= k < |OUTCOME_MARKERS[i]|
      ensures LikeChar(OUTCOME_MARKERS[i][k], msg[k])
    {
      assert OUTCOME_MARKERS[i][k] == msg[k];
    }
    assert LikePrefix(OUTCOME_MARKERS[i], msg);
  }

  /** The SQL match, exactly: some marker agrees letter by letter up to case, and `_` matches anything. */
  lemma SqlMatchMeaning(msg: string)
    ensures UnknownMarkerSql(msg)
        <==> exists i :: 0 <= i < |OUTCOME_MARKERS| && LikePrefix(OUTCOME_MARKERS[i], msg)
  {
    forall i | 0 <= i < |OUTCOME_MARKERS|
      ensures Like(OUTCOME_MARKERS[i] + "%", msg) <==> LikePrefix(OUTCOME_MARKERS[i], msg)
    {
      NoPercentInMarkers(i);
      LikePrefixMeaning(OUTCOME_MARKERS[i], msg);
    }
  }

  /** The converse fails: this text matches the SQL predicate and carries no marker. */
  lemma SqlMatchesMoreThanMarkers()
    ensures UnknownMarkerSql("unknown-partial-delivery: odd spelling")
    ensures !HasUnknownOutcomeMarker("unknown-partial-delivery: odd spelling")
  {
    var msg := "unknown-partial-delivery: odd spelling";
    assert msg[0] == 'u';
    UnmarkedByFirstChar(msg);
    var m := OUTCOME_MARKERS[3];
    assert |m| == 24;
    forall k | 0 <= k < |m|
      ensures LikeChar(m[k], msg[k])
    {
    }
    assert LikePrefix(m, msg);
    SqlMatchMeaning(msg);
  }
}

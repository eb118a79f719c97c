/** What the token checks guarantee for one pass and over whole runs. */
module TokenProperties {
  import opened Common
  import opened OneAgentApi
  import opened TokenReconciler

  // ---------- no update, no change ----------

  lemma {:induction false} ReportUnchanged(
      conditions: seq<Condition>, tokens: seq<TokenKind>, report: TokenKind -> Option<Condition>, now: Time)
    requires !ReportEach(conditions, tokens, report, now).1
    ensures ReportEach(conditions, tokens, report, now).0 == conditions
    decreases |tokens|
  {
    if tokens != [] {
      ReportUnchanged(conditions, tokens[1..], report, now);
    }
  }

  lemma ProbeTokenUnchanged(t: TokenKind, value: string, s: OneAgentStatus, inputs: TokenInputs)
    requires !ProbeToken(t, value, s, inputs).update
    ensures ProbeToken(t, value, s, inputs) == ProbeEnd(s, false, [])
  {
  }

  lemma {:induction false} ProbeUnchanged(
      tokens: seq<TokenKind>, secret: map<string, string>, s: OneAgentStatus, inputs: TokenInputs)
    requires forall t :: t in tokens ==> SecretField(t) in secret
    requires !ProbeAll(tokens, secret, s, inputs).update
    ensures ProbeAll(tokens, secret, s, inputs) == ProbeEnd(s, false, [])
    decreases |tokens|
  {
    if tokens != [] {
      ProbeTokenUnchanged(tokens[0], secret[SecretField(tokens[0])], s, inputs);
      ProbeUnchanged(tokens[1..], secret, s, inputs);
    }
  }

  /** A pass that reports no update left the status exactly as it was and asked nothing. */
  lemma NoUpdateNoChange(tokens: seq<TokenKind>, s: OneAgentStatus, inputs: TokenInputs)
    requires !TokenStage(tokens, s, inputs).update
    ensures TokenStage(tokens, s, inputs).status == s && TokenStage(tokens, s, inputs).requests == []
  {
    assert Migrated(s.conditions, inputs.now) == s.conditions;
    match inputs.secret
    case SecretMissing =>
      ReportUnchanged(s.conditions, tokens,
        UniformReport("TokenSecretNotFound", "Secret '" + inputs.secretKey + "' not found"), inputs.now);
    case SecretFailed =>
    case SecretData(secret) =>
      if AnyMissing(tokens, secret) {
        ReportUnchanged(s.conditions, tokens, MissingReport(inputs, secret), inputs.now);
      } else if inputs.clientError.Some? {
        ReportUnchanged(s.conditions, tokens,
          UniformReport("TokenError", "Failed to create Dynatrace API Client: " + inputs.clientError.value),
          inputs.now);
      } else {
        ProbeUnchanged(tokens, secret, s, inputs);
      }
  }

  /** What the token checks never touch. */
  predicate KeepsInstances(s: OneAgentStatus, s': OneAgentStatus) {
    s'.instances == s.instances
  }

  lemma {:induction false} ProbeAllKeepsInstances(
      tokens: seq<TokenKind>, secret: map<string, string>, s: OneAgentStatus, inputs: TokenInputs)
    requires forall t :: t in tokens ==> SecretField(t) in secret
    ensures KeepsInstances(s, ProbeAll(tokens, secret, s, inputs).status)
    decreases |tokens|
  {
    if tokens != [] {
      var first := ProbeToken(tokens[0], secret[SecretField(tokens[0])], s, inputs);
      ProbeAllKeepsInstances(tokens[1..], secret, first.status, inputs);
    }
  }

  lemma StageKeepsInstances(tokens: seq<TokenKind>, s: OneAgentStatus, inputs: TokenInputs)
    ensures KeepsInstances(s, TokenStage(tokens, s, inputs).status)
  {
    if ReachesProbes(tokens, inputs) {
      ProbingStage(tokens, s, inputs);
      ProbeAllKeepsInstances(tokens, inputs.secret.data, s.(conditions := Migrated(s.conditions, inputs.now)), inputs);
    }
  }

  // ---------- the conditions stay a set of stamped reports ----------

  predicate UniqueKinds(conditions: seq<Condition>) {
    forall i, j :: 0 <= i < j < |conditions| ==> conditions[i].kind != conditions[j].kind
  }

  predicate AllStamped(conditions: seq<Condition>) {
    forall i :: 0 <= i < |conditions| ==> conditions[i].lastTransitionTime != ZERO_TIME
  }

  predicate WellKept(conditions: seq<Condition>) {
    UniqueKinds(conditions) && AllStamped(conditions)
  }

  lemma SetConditionWellKept(conditions: seq<Condition>, c: Condition, now: Time)
    requires WellKept(conditions) && now != ZERO_TIME
    ensures WellKept(SetConditionAt(conditions, c, now).0)
  {
  }

  lemma {:induction false} ReportWellKept(
      conditions: seq<Condition>, tokens: seq<TokenKind>, report: TokenKind -> Option<Condition>, now: Time)
    requires WellKept(conditions) && now != ZERO_TIME
    ensures WellKept(ReportEach(conditions, tokens, report, now).0)
    decreases |tokens|
  {
    if tokens != [] {
      var c := report(tokens[0]);
      if c.Some? {
        SetConditionWellKept(conditions, c.value, now);
      }
      var next := if c.Some? then SetConditionAt(conditions, c.value, now).0 else conditions;
      ReportWellKept(next, tokens[1..], report, now);
    }
  }

  lemma ProbeWellKept(t: TokenKind, value: string, s: OneAgentStatus, inputs: TokenInputs)
    requires WellKept(s.conditions) && inputs.now != ZERO_TIME
    ensures WellKept(ProbeToken(t, value, s, inputs).status.conditions)
  {
    SetConditionWellKept(s.conditions, Verdict(t, inputs), inputs.now);
    SetConditionWellKept(s.conditions,
      Failing(t, "TokenUnauthorized", "Token on secret " + inputs.secretKey + " has leading and/or trailing spaces"),
          inputs.now);
  }

  lemma {:induction false} ProbeAllWellKept(
      tokens: seq<TokenKind>, secret: map<string, string>, s: OneAgentStatus, inputs: TokenInputs)
    requires forall t :: t in tokens ==> SecretField(t) in secret
    requires WellKept(s.conditions) && inputs.now != ZERO_TIME
    ensures WellKept(ProbeAll(tokens, secret, s, inputs).status.conditions)
    decreases |tokens|
  {
    if tokens != [] {
      ProbeWellKept(tokens[0], secret[SecretField(tokens[0])], s, inputs);
      ProbeAllWellKept(tokens[1..], secret, ProbeToken(tokens[0], secret[SecretField(tokens[0])], s, inputs).status,
          inputs);
    }
  }

  /** Condition types stay unique, and after every pass each condition has a transition time. */
  lemma StageWellKept(tokens: seq<TokenKind>, s: OneAgentStatus, inputs: TokenInputs)
    requires UniqueKinds(s.conditions) && inputs.now != ZERO_TIME
    ensures WellKept(TokenStage(tokens, s, inputs).status.conditions)
  {
    var s1 := s.(conditions := Migrated(s.conditions, inputs.now));
    assert WellKept(s1.conditions);
    match inputs.secret
    case SecretMissing =>
      ReportWellKept(s1.conditions, tokens,
        UniformReport("TokenSecretNotFound", "Secret '" + inputs.secretKey + "' not found"), inputs.now);
    case SecretFailed =>
    case SecretData(secret) =>
      if AnyMissing(tokens, secret) {
        ReportWellKept(s1.conditions, tokens, MissingReport(inputs, secret), inputs.now);
      } else if inputs.clientError.Some? {
        ReportWellKept(s1.conditions, tokens,
          UniformReport("TokenError", "Failed to create Dynatrace API Client: " + inputs.clientError.value),
          inputs.now);
      } else {
        ProbeAllWellKept(tokens, secret, s1, inputs);
      }
  }

  // ---------- True means the scope was granted ----------

  predicate IsTrue(conditions: seq<Condition>, kind: string) {
    var i := Find(conditions, kind);
    i < |conditions| && conditions[i].status == ConditionTrue
  }

  lemma {:induction false} FindFirst(conditions: seq<Condition>, kind: string, i: nat)
    requires i <= |conditions| && (i < |conditions| ==> conditions[i].kind == kind)
    requires forall j :: 0 <= j < i ==> conditions[j].kind != kind
    ensures Find(conditions, kind) == i
    decreases |conditions|
  {
    if i > 0 {
      FindFirst(conditions[1..], kind, i - 1);
    }
  }

  lemma SetConditionTruth(conditions: seq<Condition>, c: Condition, now: Time, kind: string)
    ensures IsTrue(SetConditionAt(conditions, c, now).0, kind) <==>
            if kind == c.kind then c.status == ConditionTrue else IsTrue(conditions, kind)
  {
    var after := SetConditionAt(conditions, c, now).0;
    var i := Find(conditions, kind);
    if kind == c.kind || i < |conditions| {
      FindFirst(after, kind, i);
    } else {
      FindFirst(after, kind, |after|);
    }
  }

  // ---------- reporting the same again ----------

  /** The condition of this kind already says the same. */
  predicate Reports(conditions: seq<Condition>, c: Condition) {
    var i := Find(conditions, c.kind);
    i < |conditions| && SameReport(conditions[i], c)
  }

  /** Every token for which there is something to report has it reported. */
  predicate AllReported(conditions: seq<Condition>, tokens: seq<TokenKind>, report: TokenKind -> Option<Condition>) {
    forall t :: t in tokens && report(t).Some? ==> Reports(conditions, report(t).value)
  }

  /** Reporting changes something exactly when some report is new. */
  lemma {:induction false} ReportIdleIff(
      conditions: seq<Condition>, tokens: seq<TokenKind>, report: TokenKind -> Option<Condition>, now: Time)
    ensures !ReportEach(conditions, tokens, report, now).1 <==> AllReported(conditions, tokens, report)
    decreases |tokens|
  {
    if tokens != [] {
      var t := tokens[0];
      if report(t).None? || Reports(conditions, report(t).value) {
        ReportIdleIff(conditions, tokens[1..], report, now);
        assert forall k :: k in tokens <==> k == t || k in tokens[1..];
      }
    }
  }

  lemma SetConditionReports(conditions: seq<Condition>, c: Condition, now: Time, d: Condition)
    ensures Reports(SetConditionAt(conditions, c, now).0, c)
    ensures d.kind != c.kind && Reports(conditions, d) ==> Reports(SetConditionAt(conditions, c, now).0, d)
  {
    var after := SetConditionAt(conditions, c, now).0;
    FindFirst(after, c.kind, Find(conditions, c.kind));
    var i := Find(conditions, d.kind);
    if d.kind != c.kind && i < |conditions| {
      FindFirst(after, d.kind, i);
    }
  }

  /** Reports are about the condition of their token. */
  predicate OwnKinds(report: TokenKind -> Option<Condition>) {
    forall t :: report(t).Some? ==> report(t).value.kind == ConditionKind(t)
  }

  lemma {:induction false} ReportKeeps(
      conditions: seq<Condition>, tokens: seq<TokenKind>, report: TokenKind -> Option<Condition>, now: Time,
      d: Condition)
    requires OwnKinds(report) && forall t :: t in tokens ==> ConditionKind(t) != d.kind
    requires Reports(conditions, d)
    ensures Reports(ReportEach(conditions, tokens, report, now).0, d)
    decreases |tokens|
  {
    if tokens != [] {
      var c := report(tokens[0]);
      if c.Some? {
        SetConditionReports(conditions, c.value, now, d);
      }
      var next := if c.Some? then SetConditionAt(conditions, c.value, now).0 else conditions;
      ReportKeeps(next, tokens[1..], report, now, d);
    }
  }

  /** What has been reported stays reported, so that reporting it again changes nothing. */
  lemma {:induction false} ReportedAfterwards(
      conditions: seq<Condition>, tokens: seq<TokenKind>, report: TokenKind -> Option<Condition>, now: Time)
    requires OwnKinds(report) && Distinct(tokens)
    ensures AllReported(ReportEach(conditions, tokens, report, now).0, tokens, report)
    decreases |tokens|
  {
    if tokens != [] {
      var t, c := tokens[0], report(tokens[0]);
      var next := if c.Some? then SetConditionAt(conditions, c.value, now).0 else conditions;
      ReportedAfterwards(next, tokens[1..], report, now);
      assert forall k :: k in tokens <==> k == t || k in tokens[1..];
      if c.Some? {
        SetConditionReports(conditions, c.value, now, c.value);
        assert forall k :: k in tokens[1..] ==> k != t;
        ReportKeeps(next, tokens[1..], report, now, c.value);
      }
    }
  }

  predicate OnlyFailures(report: TokenKind -> Option<Condition>) {
    forall t :: report(t).Some? ==> report(t).value.status == ConditionFalse
  }

  lemma {:induction false} ReportTruth(
      conditions: seq<Condition>, tokens: seq<TokenKind>,
      report: TokenKind -> Option<Condition>, now: Time, kind: string)
    requires OnlyFailures(report)
    ensures IsTrue(ReportEach(conditions, tokens, report, now).0, kind) ==> IsTrue(conditions, kind)
    decreases |tokens|
  {
    if tokens != [] {
      var c := report(tokens[0]);
      if c.Some? {
        SetConditionTruth(conditions, c.value, now, kind);
      }
      var next := if c.Some? then SetConditionAt(conditions, c.value, now).0 else conditions;
      ReportTruth(next, tokens[1..], report, now, kind);
    }
  }

  predicate Distinct(tokens: seq<TokenKind>) {
    forall i, j :: 0 <= i < j < |tokens| ==> tokens[i] != tokens[j]
  }

  lemma ProbeTruth(t: TokenKind, value: string, s: OneAgentStatus, inputs: TokenInputs, k: TokenKind)
    ensures var end := ProbeToken(t, value, s, inputs);
            IsTrue(end.status.conditions, ConditionKind(k)) ==>
              || IsTrue(s.conditions, ConditionKind(k))
              || (k == t && Accepted(t, inputs) && end.requests == [Request(t, inputs.now)])
  {
    SetConditionTruth(s.conditions, Verdict(t, inputs), inputs.now, ConditionKind(k));
    SetConditionTruth(s.conditions,
      Failing(t, "TokenUnauthorized", "Token on secret " + inputs.secretKey + " has leading and/or trailing spaces"),
      inputs.now, ConditionKind(k));
  }

  lemma {:induction false} ProbeAllTruth(
      tokens: seq<TokenKind>, secret: map<string, string>, s: OneAgentStatus, inputs: TokenInputs, k: TokenKind)
    requires forall t :: t in tokens ==> SecretField(t) in secret
    ensures var end := ProbeAll(tokens, secret, s, inputs);
            IsTrue(end.status.conditions, ConditionKind(k)) ==>
              IsTrue(s.conditions, ConditionKind(k)) || (Accepted(k, inputs) && Request(k, inputs.now) in end.requests)
    decreases |tokens|
  {
    if tokens != [] {
      ProbeTruth(tokens[0], secret[SecretField(tokens[0])], s, inputs, k);
      ProbeAllTruth(tokens[1..], secret, ProbeToken(tokens[0], secret[SecretField(tokens[0])], s, inputs).status,
          inputs, k);
    }
  }

  lemma {:induction false} MigratedTruth(conditions: seq<Condition>, now: Time, kind: string)
    ensures IsTrue(Migrated(conditions, now), kind) == IsTrue(conditions, kind)
    decreases |conditions|
  {
    FindFirst(Migrated(conditions, now), kind, Find(conditions, kind));
  }

  /** A token's condition becomes True only in a pass that asked for its scopes and was granted the required one. */
  lemma TrueOnlyWhenGranted(tokens: seq<TokenKind>, s: OneAgentStatus, inputs: TokenInputs, k: TokenKind)
    ensures var end := TokenStage(tokens, s, inputs);
            IsTrue(end.status.conditions, ConditionKind(k)) && !IsTrue(s.conditions, ConditionKind(k)) ==>
              && end.error.None? && Accepted(k, inputs) && RequiredScope(k) in inputs.scopes(k).scopes
              && Request(k, inputs.now) in end.requests
  {
    var s1 := s.(conditions := Migrated(s.conditions, inputs.now));
    var kind := ConditionKind(k);
    MigratedTruth(s.conditions, inputs.now, kind);
    match inputs.secret
    case SecretMissing =>
      ReportTruth(s1.conditions, tokens,
        UniformReport("TokenSecretNotFound", "Secret '" + inputs.secretKey + "' not found"), inputs.now, kind);
    case SecretFailed =>
    case SecretData(secret) =>
      if AnyMissing(tokens, secret) {
        ReportTruth(s1.conditions, tokens, MissingReport(inputs, secret), inputs.now, kind);
      } else if inputs.clientError.Some? {
        ReportTruth(s1.conditions, tokens,
          UniformReport("TokenError", "Failed to create Dynatrace API Client: " + inputs.clientError.value),
          inputs.now, kind);
      } else {
        ProbeAllTruth(tokens, secret, s1, inputs, k);
      }
  }

  // ---------- spacing of requests ----------

  predicate Spaced(requests: seq<Request>) {
    forall i, j :: 0 <= i < j < |requests| && requests[i].token == requests[j].token ==>
      requests[j].at >= requests[i].at + 5 * 60
  }

  /** The requests respect an earlier probe of each token. */
  predicate AfterProbes(requests: seq<Request>, s: OneAgentStatus) {
    forall i :: 0 <= i < |requests| && LastProbe(requests[i].token, s).Some? ==>
      requests[i].at >= LastProbe(requests[i].token, s).value + 5 * 60
  }

  /** What a pass asks and remembers: at most one request per token, only when due, recorded as its last probe. */
  predicate Disciplined(
      tokens: seq<TokenKind>, s: OneAgentStatus, s': OneAgentStatus, requests: seq<Request>, now: Time)
  {
    && (forall r :: r in requests ==>
        r.at == now && r.token in tokens && ProbeDue(r.token, s, now) && LastProbe(r.token, s') == Some(now))
    && (forall i, j :: 0 <= i < j < |requests| ==> requests[i].token != requests[j].token)
    && (forall t: TokenKind :: (forall r :: r in requests ==> r.token != t) ==> LastProbe(t, s') == LastProbe(t, s))
  }

  lemma {:induction false} ProbeAllDisciplined(
      tokens: seq<TokenKind>, secret: map<string, string>, s: OneAgentStatus, inputs: TokenInputs)
    requires forall t :: t in tokens ==> SecretField(t) in secret
    requires Distinct(tokens)
    ensures var end := ProbeAll(tokens, secret, s, inputs);
            Disciplined(tokens, s, end.status, end.requests, inputs.now)
    decreases |tokens|
  {
    if tokens != [] {
      var t := tokens[0];
      var first := ProbeToken(t, secret[SecretField(t)], s, inputs);
      var rest := ProbeAll(tokens[1..], secret, first.status, inputs);
      ProbeAllDisciplined(tokens[1..], secret, first.status, inputs);
      DisciplinedCons(tokens, s, first.status, rest.status, first.requests, rest.requests, inputs.now);
    }
  }

  lemma DisciplinedCons(tokens: seq<TokenKind>, s: OneAgentStatus, mid: OneAgentStatus, s': OneAgentStatus,
                        first: seq<Request>, rest: seq<Request>, now: Time)
    requires tokens != [] && Distinct(tokens)
    requires first == [] || (first == [Request(tokens[0], now)] && ProbeDue(tokens[0], s, now)
      && LastProbe(tokens[0], mid) == Some(now))
    requires forall k: TokenKind :: first == [] || k != tokens[0] ==> LastProbe(k, mid) == LastProbe(k, s)
    requires Disciplined(tokens[1..], mid, s', rest, now)
    ensures Disciplined(tokens, s, s', first + rest, now)
  {
    var all := first + rest;
    var t := tokens[0];
    assert t !in tokens[1..];
    assert forall r :: r in rest ==> r in all && r.token != t;
    assert LastProbe(t, s') == LastProbe(t, mid);
    forall k: TokenKind | forall r :: r in all ==> r.token != k
      ensures LastProbe(k, s') == LastProbe(k, s)
    {
      assert first != [] ==> first[0] in all;
    }
  }

  lemma QuietDisciplined(tokens: seq<TokenKind>, s: OneAgentStatus, s': OneAgentStatus, now: Time)
    requires forall t: TokenKind :: LastProbe(t, s') == LastProbe(t, s)
    ensures Disciplined(tokens, s, s', [], now)
  {
  }

  predicate ReachesProbes(tokens: seq<TokenKind>, inputs: TokenInputs) {
    inputs.secret.SecretData? && inputs.clientError.None? && !AnyMissing(tokens, inputs.secret.data)
  }

  lemma QuietUnlessProbing(tokens: seq<TokenKind>, s: OneAgentStatus, inputs: TokenInputs)
    requires !ReachesProbes(tokens, inputs)
    ensures TokenStage(tokens, s, inputs).requests == []
    ensures forall t: TokenKind :: LastProbe(t, TokenStage(tokens, s, inputs).status) == LastProbe(t, s)
  {
  }

  lemma ProbingStage(tokens: seq<TokenKind>, s: OneAgentStatus, inputs: TokenInputs)
    requires ReachesProbes(tokens, inputs)
    ensures var s1 := s.(conditions := Migrated(s.conditions, inputs.now));
            var end := ProbeAll(tokens, inputs.secret.data, s1, inputs);
            && TokenStage(tokens, s, inputs).status == end.status
            && TokenStage(tokens, s, inputs).requests == end.requests
            && TokenStage(tokens, s, inputs).error == None
  {
    assert !AnyMissing(tokens, inputs.secret.data);
  }

  lemma StageDisciplined(tokens: seq<TokenKind>, s: OneAgentStatus, inputs: TokenInputs)
    requires Distinct(tokens)
    ensures var end := TokenStage(tokens, s, inputs);
            Disciplined(tokens, s, end.status, end.requests, inputs.now)
  {
    var end := TokenStage(tokens, s, inputs);
    if ReachesProbes(tokens, inputs) {
      var s1 := s.(conditions := Migrated(s.conditions, inputs.now));
      ProbingStage(tokens, s, inputs);
      ProbeAllDisciplined(tokens, inputs.secret.data, s1, inputs);
      SameProbesDisciplined(tokens, s1, s, end.status, end.requests, inputs.now);
    } else {
      QuietUnlessProbing(tokens, s, inputs);
      QuietDisciplined(tokens, s, end.status, inputs.now);
    }
  }

  lemma SameProbesDisciplined(
      tokens: seq<TokenKind>, s: OneAgentStatus, r: OneAgentStatus, s': OneAgentStatus, requests: seq<Request>,
      now: Time)
    requires forall t: TokenKind :: LastProbe(t, r) == LastProbe(t, s)
    requires Disciplined(tokens, s, s', requests, now)
    ensures Disciplined(tokens, r, s', requests, now)
  {
  }

  datatype RunEnd = RunEnd(status: OneAgentStatus, requests: seq<Request>)

  /** Passes whose status is written back before the next one. */
  function Run(tokens: seq<TokenKind>, s: OneAgentStatus, passes: seq<TokenInputs>): RunEnd
    decreases |passes|
  {
    if passes == [] then RunEnd(s, [])
    else
      var first := TokenStage(tokens, s, passes[0]);
      var rest := Run(tokens, first.status, passes[1..]);
      RunEnd(rest.status, first.requests + rest.requests)
  }

  /**
   * Over any run of passes, on any clock, two scope requests for the same token are at least five minutes apart, and
   * the first ones respect the probe times the run started with.
   */
  lemma {:induction false} RequestsSpaced(tokens: seq<TokenKind>, s: OneAgentStatus, passes: seq<TokenInputs>)
    requires Distinct(tokens)
    ensures Spaced(Run(tokens, s, passes).requests) && AfterProbes(Run(tokens, s, passes).requests, s)
    decreases |passes|
  {
    if passes != [] {
      var first := TokenStage(tokens, s, passes[0]);
      var rest := Run(tokens, first.status, passes[1..]);
      StageDisciplined(tokens, s, passes[0]);
      RequestsSpaced(tokens, first.status, passes[1..]);
      SpacedAppend(tokens, s, first.status, passes[0].now, first.requests, rest.requests);
    }
  }

  lemma SpacedAppend(
      tokens: seq<TokenKind>, s: OneAgentStatus, s': OneAgentStatus, now: Time, first: seq<Request>,
      rest: seq<Request>)
    requires Disciplined(tokens, s, s', first, now)
    requires Spaced(rest) && AfterProbes(rest, s')
    ensures Spaced(first + rest) && AfterProbes(first + rest, s)
  {
    forall r | r in rest && LastProbe(r.token, s).Some? ensures r.at >= LastProbe(r.token, s).value + PROBE_INTERVAL {
      var i :| 0 <= i < |rest| && rest[i] == r;
      if q :| q in first && q.token == r.token {
        assert LastProbe(q.token, s') == Some(now) && ProbeDue(q.token, s, now);
      } else {
        assert LastProbe(r.token, s') == LastProbe(r.token, s);
      }
    }
    forall q, r | q in first && r in rest && q.token == r.token ensures r.at >= q.at + PROBE_INTERVAL {
      var i :| 0 <= i < |rest| && rest[i] == r;
      assert LastProbe(q.token, s') == Some(now);
    }
    var all := first + rest;
    forall i, j | 0 <= i < j < |all| && all[i].token == all[j].token ensures all[j].at >= all[i].at + PROBE_INTERVAL {
      if i >= |first| {
        assert rest[i - |first|] == all[i] && rest[j - |first|] == all[j];
      } else if j >= |first| {
        assert all[i] in first && all[j] in rest;
      }
    }
    forall i | 0 <= i < |all| && LastProbe(all[i].token, s).Some?
      ensures all[i].at >= LastProbe(all[i].token, s).value + PROBE_INTERVAL {
      if i < |first| {
        assert all[i] in first;
      } else {
        assert all[i] in rest;
      }
    }
  }

  // ---------- what a pass reports of each token ----------

  function Reported(conditions: seq<Condition>, kind: string): Option<Condition> {
    var i := Find(conditions, kind);
    if i < |conditions| then Some(conditions[i]) else None
  }

  /** A report replaces the one of its kind and no other; the time changes only with the status. */
  lemma SetConditionReported(conditions: seq<Condition>, c: Condition, now: Time, kind: string)
    ensures var before, after := Reported(conditions, kind), Reported(SetConditionAt(conditions, c, now).0, kind);
            if kind != c.kind then after == before
            else
              && after.Some? && SameReport(after.value, c)
              && after.value.lastTransitionTime ==
                 if before.Some? && before.value.status == c.status then before.value.lastTransitionTime else now
  {
    var after := SetConditionAt(conditions, c, now).0;
    var i := Find(conditions, kind);
    if kind == c.kind || i < |conditions| {
      FindFirst(after, kind, i);
    } else {
      FindFirst(after, kind, |after|);
    }
  }

  /** The API answered with the scope the token is for, and the PaaS token's connection info came too. */
  predicate Granted(k: TokenKind, inputs: TokenInputs) {
    && inputs.scopes(k).Scopes?
    && match k
       case PaaSToken => "InstallerDownload" in inputs.scopes(k).scopes && inputs.connection.Ok?
       case APIToken => "DataExport" in inputs.scopes(k).scopes
  }

  function Reason(k: TokenKind, inputs: TokenInputs): string {
    match inputs.scopes(k)
    case Unauthorized => "TokenUnauthorized"
    case QueryFailed(_) => "TokenError"
    case Scopes(scopes) =>
      if RequiredScope(k) !in scopes then "TokenScopeMissing"
      else if Granted(k, inputs) then "TokenReady"
      else "TokenError"
  }

  /** What becomes of a token's condition, as seen from before the probes. */
  predicate TokenReported(k: TokenKind, value: string, s: OneAgentStatus, s': OneAgentStatus, inputs: TokenInputs) {
    var before, after := Reported(s.conditions, ConditionKind(k)), Reported(s'.conditions, ConditionKind(k));
    if Padded(value) then after.Some? && after.value.status.ConditionFalse? && after.value.reason == "TokenUnauthorized"
    else if !ProbeDue(k, s, inputs.now) then after == before
    else
      && after.Some? && after.value.reason == Reason(k, inputs)
      && after.value.status == if Granted(k, inputs) then ConditionTrue else ConditionFalse
  }

  lemma VerdictMeaning(k: TokenKind, inputs: TokenInputs)
    ensures var c := Verdict(k, inputs);
            && c.kind == ConditionKind(k) && c.reason == Reason(k, inputs)
            && c.status == if Granted(k, inputs) then ConditionTrue else ConditionFalse
    ensures Accepted(k, inputs) <==> Granted(k, inputs)
  {
  }

  lemma ProbeReports(k: TokenKind, value: string, s: OneAgentStatus, inputs: TokenInputs)
    ensures TokenReported(k, value, s, ProbeToken(k, value, s, inputs).status, inputs)
  {
    var padded := Failing(k, "TokenUnauthorized",
        "Token on secret " + inputs.secretKey + " has leading and/or trailing spaces");
    SetConditionReported(s.conditions, padded, inputs.now, ConditionKind(k));
    SetConditionReported(s.conditions, Verdict(k, inputs), inputs.now, ConditionKind(k));
    VerdictMeaning(k, inputs);
  }

  lemma ProbeLeavesOthers(t: TokenKind, value: string, s: OneAgentStatus, inputs: TokenInputs, k: TokenKind)
    requires k != t
    ensures var s' := ProbeToken(t, value, s, inputs).status;
            && Reported(s'.conditions, ConditionKind(k)) == Reported(s.conditions, ConditionKind(k))
            && LastProbe(k, s') == LastProbe(k, s)
  {
    var padded := Failing(t, "TokenUnauthorized",
        "Token on secret " + inputs.secretKey + " has leading and/or trailing spaces");
    SetConditionReported(s.conditions, padded, inputs.now, ConditionKind(k));
    SetConditionReported(s.conditions, Verdict(t, inputs), inputs.now, ConditionKind(k));
    VerdictMeaning(t, inputs);
  }

  lemma {:induction false} ProbesLeaveOthers(
      tokens: seq<TokenKind>, secret: map<string, string>, s: OneAgentStatus, inputs: TokenInputs, k: TokenKind)
    requires forall t :: t in tokens ==> SecretField(t) in secret
    requires k !in tokens
    ensures var s' := ProbeAll(tokens, secret, s, inputs).status;
            && Reported(s'.conditions, ConditionKind(k)) == Reported(s.conditions, ConditionKind(k))
            && LastProbe(k, s') == LastProbe(k, s)
    decreases |tokens|
  {
    if tokens != [] {
      var value := secret[SecretField(tokens[0])];
      ProbeLeavesOthers(tokens[0], value, s, inputs, k);
      ProbesLeaveOthers(tokens[1..], secret, ProbeToken(tokens[0], value, s, inputs).status, inputs, k);
    }
  }

  lemma {:induction false} ProbesReport(
      tokens: seq<TokenKind>, secret: map<string, string>, s: OneAgentStatus, inputs: TokenInputs, k: TokenKind)
    requires forall t :: t in tokens ==> SecretField(t) in secret
    requires Distinct(tokens) && k in tokens
    ensures TokenReported(k, secret[SecretField(k)], s, ProbeAll(tokens, secret, s, inputs).status, inputs)
    decreases |tokens|
  {
    var t, value := tokens[0], secret[SecretField(tokens[0])];
    var first := ProbeToken(t, value, s, inputs).status;
    if t == k {
      ProbeReports(k, value, s, inputs);
      ProbesLeaveOthers(tokens[1..], secret, first, inputs, k);
    } else {
      ProbeLeavesOthers(t, value, s, inputs, k);
      ProbesReport(tokens[1..], secret, first, inputs, k);
    }
  }

  /** The environment is taken over from the connection info of a PaaS token that was probed and granted. */
  function EnvironmentAfter(
      tokens: seq<TokenKind>, secret: map<string, string>, s: OneAgentStatus, inputs: TokenInputs): string
    requires forall t :: t in tokens ==> SecretField(t) in secret
  {
    if && PaaSToken in tokens && !Padded(secret[SecretField(PaaSToken)])
       && ProbeDue(PaaSToken, s, inputs.now) && Granted(PaaSToken, inputs)
    then inputs.connection.value else s.environmentID
  }

  lemma {:induction false} ProbesRecordEnvironment(
      tokens: seq<TokenKind>, secret: map<string, string>, s: OneAgentStatus, inputs: TokenInputs)
    requires forall t :: t in tokens ==> SecretField(t) in secret
    requires Distinct(tokens)
    ensures ProbeAll(tokens, secret, s, inputs).status.environmentID == EnvironmentAfter(tokens, secret, s, inputs)
    decreases |tokens|
  {
    if tokens != [] {
      var t, value := tokens[0], secret[SecretField(tokens[0])];
      var first := ProbeToken(t, value, s, inputs).status;
      ProbesRecordEnvironment(tokens[1..], secret, first, inputs);
      VerdictMeaning(t, inputs);
      if t != PaaSToken {
        ProbeLeavesOthers(t, value, s, inputs, PaaSToken);
        assert PaaSToken in tokens <==> PaaSToken in tokens[1..];
      }
    }
  }

  lemma ProbesReportAll(
      tokens: seq<TokenKind>, secret: map<string, string>, s: OneAgentStatus, inputs: TokenInputs, k: TokenKind,
      s': OneAgentStatus)
    requires forall t :: t in tokens ==> SecretField(t) in secret
    requires Distinct(tokens) && k in tokens && s' == ProbeAll(tokens, secret, s, inputs).status
    ensures TokenReported(k, secret[SecretField(k)], s, s', inputs)
    ensures s'.environmentID == EnvironmentAfter(tokens, secret, s, inputs)
  {
    ProbesReport(tokens, secret, s, inputs, k);
    ProbesRecordEnvironment(tokens, secret, s, inputs);
  }

  /**
   * When every token is there and the client can be built, each token is reported as its answer says: True exactly for
   * a granted one, unchanged while no probe is due, and False if it is padded. The environment follows the PaaS token.
   */
  lemma StageReports(
      tokens: seq<TokenKind>, s: OneAgentStatus, inputs: TokenInputs, k: TokenKind, s1: OneAgentStatus, end: TokenEnd)
    requires Distinct(tokens) && ReachesProbes(tokens, inputs) && k in tokens
    requires s1 == s.(conditions := Migrated(s.conditions, inputs.now)) && end == TokenStage(tokens, s, inputs)
    ensures end.error.None?
    ensures TokenReported(k, inputs.secret.data[SecretField(k)], s1, end.status, inputs)
    ensures end.status.environmentID == EnvironmentAfter(tokens, inputs.secret.data, s1, inputs)
  {
    ProbingStage(tokens, s, inputs);
    ProbesReportAll(tokens, inputs.secret.data, s1, inputs, k, end.status);
  }

  predicate Says(c: Option<Condition>, reason: string) {
    c.Some? && c.value.status.ConditionFalse? && c.value.reason == reason
  }

  lemma ReportSays(
      conditions: seq<Condition>, tokens: seq<TokenKind>, report: TokenKind -> Option<Condition>, now: Time,
      k: TokenKind)
    requires OwnKinds(report) && Distinct(tokens) && k in tokens && report(k).Some?
      && report(k).value.status.ConditionFalse?
    ensures Says(Reported(ReportEach(conditions, tokens, report, now).0, ConditionKind(k)), report(k).value.reason)
  {
    ReportedAfterwards(conditions, tokens, report, now);
  }

  /** The secret has nothing under the token's field. */
  predicate Absent(k: TokenKind, secret: map<string, string>) {
    SecretField(k) !in secret || |secret[SecretField(k)]| == 0
  }

  lemma MissingMeaning(tokens: seq<TokenKind>, secret: map<string, string>)
    ensures forall k :: Missing(secret, k) <==> Absent(k, secret)
    ensures AnyMissing(tokens, secret) <==> exists i :: 0 <= i < |tokens| && Absent(tokens[i], secret)
  {
  }

  /** Otherwise the stage fails, with the environment as it was, and says why of every token concerned. */
  lemma StageFails(tokens: seq<TokenKind>, s: OneAgentStatus, inputs: TokenInputs, k: TokenKind)
    requires Distinct(tokens) && !ReachesProbes(tokens, inputs) && k in tokens
    ensures var end := TokenStage(tokens, s, inputs);
            var after := Reported(end.status.conditions, ConditionKind(k));
            && end.error.Some? && end.status.environmentID == s.environmentID
            && (inputs.secret.SecretMissing? ==>
                  end.error == Some(SecretNotFound) && Says(after, "TokenSecretNotFound"))
            && (inputs.secret.SecretFailed? ==> end.error == Some(SecretUnavailable))
            && (inputs.secret.SecretData? && Absent(k, inputs.secret.data) ==>
                  end.error == Some(TokensInvalid) && Says(after, "TokenMissing"))
            && (inputs.secret.SecretData? && (forall t :: t in tokens ==> !Absent(t, inputs.secret.data)) ==>
                  end.error == Some(ClientUnavailable) && Says(after, "TokenError"))
  {
    var now, conditions := inputs.now, Migrated(s.conditions, inputs.now);
    match inputs.secret
    case SecretMissing =>
      var report := UniformReport("TokenSecretNotFound", "Secret '" + inputs.secretKey + "' not found");
      ReportSays(conditions, tokens, report, now, k);
    case SecretFailed =>
    case SecretData(secret) =>
      MissingMeaning(tokens, secret);
      CheckFails(tokens, secret, s.(conditions := conditions), NeedsMigration(s.conditions), inputs, k);
  }

  lemma CheckFails(tokens: seq<TokenKind>, secret: map<string, string>, s: OneAgentStatus, changed: bool,
                   inputs: TokenInputs, k: TokenKind)
    requires Distinct(tokens) && k in tokens && (AnyMissing(tokens, secret) || inputs.clientError.Some?)
    ensures var end := CheckSecret(tokens, secret, s, changed, inputs);
            var after := Reported(end.status.conditions, ConditionKind(k));
            && end.error == Some(if AnyMissing(tokens, secret) then TokensInvalid else ClientUnavailable)
            && end.status.environmentID == s.environmentID
            && (Missing(secret, k) ==> Says(after, "TokenMissing"))
            && (!AnyMissing(tokens, secret) ==> Says(after, "TokenError"))
  {
    if Missing(secret, k) {
      ReportSays(s.conditions, tokens, MissingReport(inputs, secret), inputs.now, k);
    } else if !AnyMissing(tokens, secret) {
      var report := UniformReport("TokenError", "Failed to create Dynatrace API Client: " + inputs.clientError.value);
      ReportSays(s.conditions, tokens, report, inputs.now, k);
    }
  }

  // ---------- an update is reported exactly if there is one ----------

  /** The token's condition or the time of its last probe changed. */
  predicate Differs(k: TokenKind, s: OneAgentStatus, s': OneAgentStatus) {
    || Reported(s'.conditions, ConditionKind(k)) != Reported(s.conditions, ConditionKind(k))
    || LastProbe(k, s') != LastProbe(k, s)
  }

  lemma SetConditionDiffers(conditions: seq<Condition>, c: Condition, now: Time)
    requires SetConditionAt(conditions, c, now).1
    ensures Reported(SetConditionAt(conditions, c, now).0, c.kind) != Reported(conditions, c.kind)
  {
    SetConditionReported(conditions, c, now, c.kind);
  }

  lemma {:induction false} ReportLeavesOthers(
      conditions: seq<Condition>, tokens: seq<TokenKind>, report: TokenKind -> Option<Condition>, now: Time,
      k: TokenKind)
    requires OwnKinds(report) && k !in tokens
    ensures Reported(ReportEach(conditions, tokens, report, now).0, ConditionKind(k))
         == Reported(conditions, ConditionKind(k))
    decreases |tokens|
  {
    if tokens != [] {
      var c := report(tokens[0]);
      if c.Some? {
        SetConditionReported(conditions, c.value, now, ConditionKind(k));
      }
      var next := if c.Some? then SetConditionAt(conditions, c.value, now).0 else conditions;
      ReportLeavesOthers(next, tokens[1..], report, now, k);
    }
  }

  lemma {:induction false} ReportDiffers(
      conditions: seq<Condition>, tokens: seq<TokenKind>, report: TokenKind -> Option<Condition>, now: Time)
    requires OwnKinds(report) && Distinct(tokens) && ReportEach(conditions, tokens, report, now).1
    ensures ReportEach(conditions, tokens, report, now).0 != conditions
    decreases |tokens|
  {
    var c := report(tokens[0]);
    if c.Some? && SetConditionAt(conditions, c.value, now).1 {
      SetConditionDiffers(conditions, c.value, now);
      ReportLeavesOthers(SetConditionAt(conditions, c.value, now).0, tokens[1..], report, now, tokens[0]);
    } else {
      ReportDiffers(conditions, tokens[1..], report, now);
    }
  }

  lemma ProbeDiffers(t: TokenKind, value: string, s: OneAgentStatus, inputs: TokenInputs)
    requires ProbeToken(t, value, s, inputs).update
    ensures Differs(t, s, ProbeToken(t, value, s, inputs).status)
  {
    if Padded(value) {
      var padded := Failing(t, "TokenUnauthorized",
        "Token on secret " + inputs.secretKey + " has leading and/or trailing spaces");
      SetConditionDiffers(s.conditions, padded, inputs.now);
    }
  }

  lemma {:induction false} ProbesDiffer(
      tokens: seq<TokenKind>, secret: map<string, string>, s: OneAgentStatus, inputs: TokenInputs)
    requires forall t :: t in tokens ==> SecretField(t) in secret
    requires Distinct(tokens) && ProbeAll(tokens, secret, s, inputs).update
    ensures ProbeAll(tokens, secret, s, inputs).status != s
    decreases |tokens|
  {
    var t, value := tokens[0], secret[SecretField(tokens[0])];
    var first := ProbeToken(t, value, s, inputs);
    if first.update {
      ProbeDiffers(t, value, s, inputs);
      ProbesLeaveOthers(tokens[1..], secret, first.status, inputs, t);
    } else {
      ProbeTokenUnchanged(t, value, s, inputs);
      ProbesDiffer(tokens[1..], secret, s, inputs);
    }
  }

  /** The stage reports an update exactly if it changed the status. */
  lemma UpdateIffChange(tokens: seq<TokenKind>, s: OneAgentStatus, inputs: TokenInputs)
    requires Distinct(tokens) && UniqueKinds(s.conditions) && inputs.now != ZERO_TIME
    ensures TokenStage(tokens, s, inputs).update <==> TokenStage(tokens, s, inputs).status != s
  {
    if !TokenStage(tokens, s, inputs).update {
      NoUpdateNoChange(tokens, s, inputs);
    } else if NeedsMigration(s.conditions) {
      StageWellKept(tokens, s, inputs);
    } else {
      assert Migrated(s.conditions, inputs.now) == s.conditions;
      match inputs.secret
      case SecretMissing =>
        ReportDiffers(s.conditions, tokens,
          UniformReport("TokenSecretNotFound", "Secret '" + inputs.secretKey + "' not found"), inputs.now);
      case SecretFailed =>
      case SecretData(secret) =>
        if AnyMissing(tokens, secret) {
          ReportDiffers(s.conditions, tokens, MissingReport(inputs, secret), inputs.now);
        } else if inputs.clientError.Some? {
          ReportDiffers(s.conditions, tokens,
            UniformReport("TokenError", "Failed to create Dynatrace API Client: " + inputs.clientError.value),
            inputs.now);
        } else {
          ProbesDiffer(tokens, secret, s, inputs);
        }
    }
  }
}

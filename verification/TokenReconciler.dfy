/** Checking the API and PaaS tokens of a OneAgent and reporting on them in its conditions. */
module TokenReconciler {
  import opened Common
  import opened OneAgentApi

  datatype TokenKind = PaaSToken | APIToken

  function ConditionKind(t: TokenKind): string {
    match t case PaaSToken => "PaaSToken" case APIToken => "APIToken"
  }

  function SecretField(t: TokenKind): string {
    match t case PaaSToken => "paasToken" case APIToken => "apiToken"
  }

  function RequiredScope(t: TokenKind): string {
    match t case PaaSToken => "InstallerDownload" case APIToken => "DataExport"
  }

  const PROBE_INTERVAL: int := 5 * MINUTE

  // ---------- answers of the outside ----------

  datatype SecretAnswer = SecretMissing | SecretFailed | SecretData(data: map<string, string>)

  datatype ScopeAnswer = Scopes(scopes: set<string>) | Unauthorized | QueryFailed(message: string)

  /** What a pass sees; now is the clock in whole seconds. */
  datatype TokenInputs = TokenInputs(
    now: Time,
    secretKey: string,
    secret: SecretAnswer,
    clientError: Option<string>,
    scopes: TokenKind -> ScopeAnswer,
    connection: Result<string, string>)

  datatype Request = Request(token: TokenKind, at: Time)

  datatype TokenError = SecretNotFound | SecretUnavailable | TokensInvalid | ClientUnavailable

  // ---------- conditions ----------

  /** Position of the first condition of a kind, or the length. */
  function Find(conditions: seq<Condition>, kind: string): (i: nat)
    ensures i <= |conditions|
    ensures i < |conditions| ==> conditions[i].kind == kind
    ensures forall j :: 0 <= j < i ==> conditions[j].kind != kind
  {
    if conditions == [] || conditions[0].kind == kind then 0 else 1 + Find(conditions[1..], kind)
  }

  predicate SameReport(a: Condition, b: Condition) {
    a.reason == b.reason && a.message == b.message && a.status == b.status
  }

  /** The conditions after reporting c at a time, and whether that changed anything. */
  function SetConditionAt(conditions: seq<Condition>, c: Condition, now: Time): (seq<Condition>, bool) {
    var i := Find(conditions, c.kind);
    if i == |conditions| then (conditions + [c.(lastTransitionTime := now)], true)
    else if SameReport(conditions[i], c) then (conditions, false)
    else
      var since := if conditions[i].status != c.status then now else conditions[i].lastTransitionTime;
      (conditions[i := c.(lastTransitionTime := since)], true)
  }

  function Failing(t: TokenKind, reason: string, message: string): Condition {
    Condition(ConditionKind(t), ConditionFalse, reason, message, ZERO_TIME)
  }

  /** Give conditions of the older format a transition time. */
  function Migrated(conditions: seq<Condition>, now: Time): (r: seq<Condition>)
    ensures |r| == |conditions|
    ensures forall i :: 0 <= i < |r| ==> r[i] == Stamped(conditions[i], now)
  {
    if conditions == [] then [] else [Stamped(conditions[0], now)] + Migrated(conditions[1..], now)
  }

  function Stamped(c: Condition, now: Time): Condition {
    if c.lastTransitionTime == ZERO_TIME then c.(lastTransitionTime := now) else c
  }

  /** The first i conditions are migrated and the others are as before. */
  predicate MigratedUpTo(before: seq<Condition>, i: nat, now: Time, cur: seq<Condition>) {
    |cur| == |before| && forall j :: 0 <= j < |cur| ==> cur[j] == if j < i then Stamped(before[j], now) else before[j]
  }

  predicate NeedsMigrationUpTo(conditions: seq<Condition>, n: nat) {
    exists i :: 0 <= i < n && i < |conditions| && conditions[i].lastTransitionTime == ZERO_TIME
  }

  lemma MigratedNext(before: seq<Condition>, i: nat, now: Time, cur: seq<Condition>)
    requires i < |before| && MigratedUpTo(before, i, now, cur)
    ensures cur[i] == before[i]
    ensures MigratedUpTo(before, i + 1, now,
                         if cur[i].lastTransitionTime == ZERO_TIME then cur[i := Stamped(cur[i], now)] else cur)
    ensures NeedsMigrationUpTo(before, i + 1) <==>
      NeedsMigrationUpTo(before, i) || cur[i].lastTransitionTime == ZERO_TIME
  {
  }

  lemma MigratedAtEnd(before: seq<Condition>, now: Time, cur: seq<Condition>)
    requires MigratedUpTo(before, |before|, now, cur)
    ensures cur == Migrated(before, now)
    ensures NeedsMigrationUpTo(before, |before|) == NeedsMigration(before)
  {
  }

  predicate NeedsMigration(conditions: seq<Condition>) {
    exists i :: 0 <= i < |conditions| && conditions[i].lastTransitionTime == ZERO_TIME
  }

  /** Report the same kind of failure for every token for which report yields a condition. */
  function ReportEach(
      conditions: seq<Condition>, tokens: seq<TokenKind>, report: TokenKind -> Option<Condition>, now: Time)
    : (seq<Condition>, bool)
    decreases |tokens|
  {
    if tokens == [] then (conditions, false)
    else
      var c := report(tokens[0]);
      var (next, changed) := if c.Some? then SetConditionAt(conditions, c.value, now) else (conditions, false);
      var (last, more) := ReportEach(next, tokens[1..], report, now);
      (last, changed || more)
  }

  // ---------- probing one token ----------

  /** unicode.IsSpace. */
  predicate IsSpace(c: char) {
    var n := c as int;
    || 9 <= n <= 13 || n == 0x20 || n == 0x85 || n == 0xA0 || n == 0x1680 || 0x2000 <= n <= 0x200a
    || n == 0x2028 || n == 0x2029 || n == 0x202f || n == 0x205f || n == 0x3000
  }

  /** Trimming white space would change the string. */
  predicate Padded(s: string) {
    s != "" && (IsSpace(s[0]) || IsSpace(s[|s| - 1]))
  }

  function LastProbe(t: TokenKind, s: OneAgentStatus): Option<Time> {
    match t case PaaSToken => s.lastPaaSTokenProbe case APIToken => s.lastAPITokenProbe
  }

  function WithProbe(t: TokenKind, s: OneAgentStatus, at: Time): OneAgentStatus {
    match t case PaaSToken => s.(lastPaaSTokenProbe := Some(at)) case APIToken => s.(lastAPITokenProbe := Some(at))
  }

  predicate ProbeDue(t: TokenKind, s: OneAgentStatus, now: Time) {
    LastProbe(t, s).None? || now >= LastProbe(t, s).value + PROBE_INTERVAL
  }

  /** The required scope was granted, and for the PaaS token the connection info was available too. */
  predicate Accepted(t: TokenKind, inputs: TokenInputs) {
    && inputs.scopes(t).Scopes? && RequiredScope(t) in inputs.scopes(t).scopes
    && (t.PaaSToken? ==> inputs.connection.Ok?)
  }

  /** The condition that reports the answer to a probe. */
  function Verdict(t: TokenKind, inputs: TokenInputs): Condition {
    match inputs.scopes(t)
    case Unauthorized => Failing(t, "TokenUnauthorized", "Token on secret " + inputs.secretKey + " unauthorized")
    case QueryFailed(m) => Failing(t, "TokenError",
      "error when querying token on secret " + inputs.secretKey + ": " + m)
    case Scopes(scopes) =>
      if RequiredScope(t) !in scopes then
        Failing(t, "TokenScopeMissing", "Token on secret " + inputs.secretKey + " missing scope " + RequiredScope(t))
      else if t.PaaSToken? && inputs.connection.Err? then
        Failing(t, "TokenError",
          "error when connection info with token on secret " + inputs.secretKey + ": " + inputs.connection.error)
      else Condition(ConditionKind(t), ConditionTrue, "TokenReady", "Ready", ZERO_TIME)
  }

  datatype ProbeEnd = ProbeEnd(status: OneAgentStatus, update: bool, requests: seq<Request>)

  function ProbeToken(t: TokenKind, value: string, s: OneAgentStatus, inputs: TokenInputs): ProbeEnd {
    if Padded(value) then
      var (conditions, changed) := SetConditionAt(s.conditions,
        Failing(t, "TokenUnauthorized",
          "Token on secret " + inputs.secretKey + " has leading and/or trailing spaces"), inputs.now);
      ProbeEnd(s.(conditions := conditions), changed, [])
    else if !ProbeDue(t, s, inputs.now) then ProbeEnd(s, false, [])
    else
      var s1 := WithProbe(t, s, inputs.now);
      var s2 := if t.PaaSToken? && Accepted(t, inputs) then s1.(environmentID := inputs.connection.value) else s1;
      ProbeEnd(s2.(conditions := SetConditionAt(s2.conditions, Verdict(t, inputs), inputs.now).0), true,
          [Request(t, inputs.now)])
  }

  function ProbeAll(
      tokens: seq<TokenKind>, secret: map<string, string>, s: OneAgentStatus, inputs: TokenInputs): ProbeEnd
    requires forall t :: t in tokens ==> SecretField(t) in secret
  {
    if tokens == [] then ProbeEnd(s, false, [])
    else
      var first := ProbeToken(tokens[0], secret[SecretField(tokens[0])], s, inputs);
      var rest := ProbeAll(tokens[1..], secret, first.status, inputs);
      ProbeEnd(rest.status, first.update || rest.update, first.requests + rest.requests)
  }

  // ---------- a pass ----------

  datatype TokenEnd = TokenEnd(status: OneAgentStatus, update: bool, error: Option<TokenError>, requests: seq<Request>)

  predicate Missing(secret: map<string, string>, t: TokenKind) {
    SecretField(t) !in secret || secret[SecretField(t)] == ""
  }

  function MissingReport(inputs: TokenInputs, secret: map<string, string>): TokenKind -> Option<Condition> {
    t => if Missing(secret, t) then
        Some(Failing(t, "TokenMissing", "Token " + SecretField(t) + " on secret " + inputs.secretKey + " missing"))
      else None
  }

  function UniformReport(reason: string, message: string): TokenKind -> Option<Condition> {
    t => Some(Failing(t, reason, message))
  }

  function TokenStage(tokens: seq<TokenKind>, s: OneAgentStatus, inputs: TokenInputs): TokenEnd {
    var s1 := s.(conditions := Migrated(s.conditions, inputs.now));
    var migrated := NeedsMigration(s.conditions);
    match inputs.secret
    case SecretMissing =>
      var (conditions, changed) := ReportEach(s1.conditions, tokens,
        UniformReport("TokenSecretNotFound", "Secret '" + inputs.secretKey + "' not found"), inputs.now);
      TokenEnd(s1.(conditions := conditions), migrated || changed, Some(SecretNotFound), [])
    case SecretFailed => TokenEnd(s1, migrated, Some(SecretUnavailable), [])
    case SecretData(secret) => CheckSecret(tokens, secret, s1, migrated, inputs)
  }

  predicate AnyMissing(tokens: seq<TokenKind>, secret: map<string, string>) {
    exists t :: t in tokens && Missing(secret, t)
  }

  /** The stage once the secret has been read; changed tells whether conditions were migrated. */
  function CheckSecret(
      tokens: seq<TokenKind>, secret: map<string, string>, s: OneAgentStatus, changed: bool,
          inputs: TokenInputs): TokenEnd
  {
    if AnyMissing(tokens, secret) then
      var (conditions, reported) := ReportEach(s.conditions, tokens, MissingReport(inputs, secret), inputs.now);
      TokenEnd(s.(conditions := conditions), changed || reported, Some(TokensInvalid), [])
    else if inputs.clientError.Some? then
      var (conditions, reported) := ReportEach(s.conditions, tokens,
        UniformReport("TokenError", "Failed to create Dynatrace API Client: " + inputs.clientError.value),
        inputs.now);
      TokenEnd(s.(conditions := conditions), changed || reported, Some(ClientUnavailable), [])
    else
      var end := ProbeAll(tokens, secret, s, inputs);
      TokenEnd(end.status, changed || end.update, None, end.requests)
  }

  class DynatraceClientReconciler {
    const updatePaaSToken: bool
    const updateAPIToken: bool
    /** Scope requests sent to the Dynatrace API, in order. */
    var requests: seq<Request>

    constructor (updatePaaSToken: bool, updateAPIToken: bool)
      ensures this.updatePaaSToken == updatePaaSToken && this.updateAPIToken == updateAPIToken && requests == []
    {
      this.updatePaaSToken, this.updateAPIToken, requests := updatePaaSToken, updateAPIToken, [];
    }

    function Tokens(): seq<TokenKind> {
      (if updatePaaSToken then [PaaSToken] else []) + (if updateAPIToken then [APIToken] else [])
    }

    method SetCondition(oa: OneAgent, c: Condition, now: Time) returns (changed: bool)
      modifies oa`status
      ensures var (conditions, ch) := SetConditionAt(old(oa.status).conditions, c, now);
              oa.status == old(oa.status).(conditions := conditions) && changed == ch
    {
      var conditions := oa.status.conditions;
      var i := Find(conditions, c.kind);
      if i < |conditions| && SameReport(conditions[i], c) {
        return false;
      }
      if i == |conditions| {
        conditions := conditions + [c.(lastTransitionTime := now)];
      } else {
        var current := conditions[i];
        if current.status != c.status {
          current := current.(status := c.status, lastTransitionTime := now);
        }
        conditions := conditions[i := current.(reason := c.reason, message := c.message)];
      }
      oa.status := oa.status.(conditions := conditions);
      return true;
    }

    method Report(
        oa: OneAgent, tokens: seq<TokenKind>, report: TokenKind -> Option<Condition>, now: Time) returns (changed: bool)
      modifies oa`status
      ensures var (conditions, ch) := ReportEach(old(oa.status).conditions, tokens, report, now);
              oa.status == old(oa.status).(conditions := conditions) && changed == ch
    {
      changed := false;
      assert tokens[0..] == tokens;
      for i := 0 to |tokens|
        invariant oa.status == old(oa.status).(conditions := oa.status.conditions)
        invariant var (last, more) := ReportEach(oa.status.conditions, tokens[i..], report, now);
                  ReportEach(old(oa.status).conditions, tokens, report, now) == (last, changed || more)
      {
        assert tokens[i..][1..] == tokens[i + 1..];
        var c := report(tokens[i]);
        if c.Some? {
          var reported := SetCondition(oa, c.value, now);
          changed := reported || changed;
        }
      }
    }

    method Migrate(oa: OneAgent, now: Time) returns (changed: bool)
      modifies oa`status
      ensures oa.status == old(oa.status).(conditions := Migrated(old(oa.status).conditions, now))
      ensures changed == NeedsMigration(old(oa.status).conditions)
    {
      changed := false;
      ghost var before := oa.status.conditions;
      for i := 0 to |oa.status.conditions|
        invariant oa.status == old(oa.status).(conditions := oa.status.conditions)
        invariant MigratedUpTo(before, i, now, oa.status.conditions)
        invariant changed == NeedsMigrationUpTo(before, i)
      {
        MigratedNext(before, i, now, oa.status.conditions);
        if oa.status.conditions[i].lastTransitionTime == ZERO_TIME {
          var c := oa.status.conditions[i].(lastTransitionTime := now);
          oa.status := oa.status.(conditions := oa.status.conditions[i := c]);
          changed := true;
        }
      }
      MigratedAtEnd(before, now, oa.status.conditions);
    }

    method Probe(oa: OneAgent, t: TokenKind, value: string, inputs: TokenInputs) returns (update: bool)
      modifies oa`status, this`requests
      ensures var end := ProbeToken(t, value, old(oa.status), inputs);
              oa.status == end.status && update == end.update && requests == old(requests) + end.requests
    {
      if Padded(value) {
        update := SetCondition(oa,
          Failing(t, "TokenUnauthorized",
            "Token on secret " + inputs.secretKey + " has leading and/or trailing spaces"), inputs.now);
        return;
      }
      if LastProbe(t, oa.status).Some? && inputs.now < LastProbe(t, oa.status).value + PROBE_INTERVAL {
        return false;
      }
      oa.status := WithProbe(t, oa.status, inputs.now);
      requests := requests + [Request(t, inputs.now)];
      update := true;

      ReportAnswer(oa, t, inputs);
    }

    /** The condition that reports the answer, and the environment that the PaaS token belongs to. */
    method ReportAnswer(oa: OneAgent, t: TokenKind, inputs: TokenInputs)
      modifies oa`status
      ensures var s := old(oa.status);
              var s2 := if t.PaaSToken? && Accepted(t, inputs) then s.(environmentID := inputs.connection.value) else s;
              oa.status == s2.(conditions := SetConditionAt(s2.conditions, Verdict(t, inputs), inputs.now).0)
    {
      match inputs.scopes(t) {
        case Unauthorized =>
          var _ := SetCondition(oa,
              Failing(t, "TokenUnauthorized", "Token on secret " + inputs.secretKey + " unauthorized"), inputs.now);
        case QueryFailed(m) =>
          var _ := SetCondition(oa,
            Failing(t, "TokenError", "error when querying token on secret " + inputs.secretKey + ": " + m), inputs.now);
        case Scopes(scopes) =>
          if RequiredScope(t) !in scopes {
            var _ := SetCondition(oa, Failing(t, "TokenScopeMissing",
              "Token on secret " + inputs.secretKey + " missing scope " + RequiredScope(t)), inputs.now);
            return;
          }
          if t.PaaSToken? {
            if inputs.connection.Err? {
              var _ := SetCondition(oa, Failing(t, "TokenError",
                "error when connection info with token on secret " + inputs.secretKey + ": " +
                inputs.connection.error), inputs.now);
              return;
            }
            oa.status := oa.status.(environmentID := inputs.connection.value);
          }
          var _ := SetCondition(oa, Condition(ConditionKind(t), ConditionTrue, "TokenReady", "Ready", ZERO_TIME),
              inputs.now);
      }
    }

    method Reconcile(oa: OneAgent, inputs: TokenInputs) returns (update: bool, error: Option<TokenError>)
      modifies oa`status, this`requests
      ensures var end := TokenStage(Tokens(), old(oa.status), inputs);
              && oa.status == end.status && update == end.update && error == end.error
              && requests == old(requests) + end.requests
    {
      var tokens := Tokens();
      update := Migrate(oa, inputs.now);
      if inputs.secret.SecretMissing? {
        var reported := Report(oa, tokens,
          UniformReport("TokenSecretNotFound", "Secret '" + inputs.secretKey + "' not found"), inputs.now);
        return reported || update, Some(SecretNotFound);
      }
      if inputs.secret.SecretFailed? {
        return update, Some(SecretUnavailable);
      }
      var secret := inputs.secret.data;
      ghost var migrated := oa.status;
      var reported := Report(oa, tokens, MissingReport(inputs, secret), inputs.now);
      if exists t :: t in tokens && Missing(secret, t) {
        return reported || update, Some(TokensInvalid);
      }
      NothingReported(migrated.conditions, tokens, MissingReport(inputs, secret), inputs.now);
      assert oa.status == migrated;
      if inputs.clientError.Some? {
        reported := Report(oa, tokens,
          UniformReport("TokenError", "Failed to create Dynatrace API Client: " + inputs.clientError.value),
          inputs.now);
        return reported || update, Some(ClientUnavailable);
      }
      var probed := ProbeTokens(oa, tokens, secret, inputs);
      return update || probed, None;
    }

    method ProbeTokens(
        oa: OneAgent, tokens: seq<TokenKind>, secret: map<string, string>, inputs: TokenInputs) returns (update: bool)
      requires forall t :: t in tokens ==> SecretField(t) in secret
      modifies oa`status, this`requests
      ensures var end := ProbeAll(tokens, secret, old(oa.status), inputs);
              oa.status == end.status && update == end.update && requests == old(requests) + end.requests
    {
      update := false;
      ghost var before, whole := requests, ProbeAll(tokens, secret, oa.status, inputs);
      assert tokens[0..] == tokens;
      for i := 0 to |tokens|
        invariant Continues(before, whole, update, requests, ProbeAll(tokens[i..], secret, oa.status, inputs))
      {
        ProbeAllStep(tokens, i, secret, oa.status, inputs, before, whole, update, requests);
        var probed := Probe(oa, tokens[i], secret[SecretField(tokens[i])], inputs);
        update := update || probed;
      }
    }
  }

  /** The whole of the probes is what was done so far followed by the rest. */
  predicate Continues(before: seq<Request>, whole: ProbeEnd, update: bool, requests: seq<Request>, rest: ProbeEnd) {
    whole.status == rest.status && whole.update == (update || rest.update)
        && before + whole.requests == requests + rest.requests
  }

  lemma ProbeAllStep(
      tokens: seq<TokenKind>, i: nat, secret: map<string, string>, s: OneAgentStatus, inputs: TokenInputs,
                     before: seq<Request>, whole: ProbeEnd, update: bool, requests: seq<Request>)
    requires i < |tokens| && forall t :: t in tokens ==> SecretField(t) in secret
    requires Continues(before, whole, update, requests, ProbeAll(tokens[i..], secret, s, inputs))
    ensures var first := ProbeToken(tokens[i], secret[SecretField(tokens[i])], s, inputs);
            var rest := ProbeAll(tokens[i + 1..], secret, first.status, inputs);
            Continues(before, whole, update || first.update, requests + first.requests, rest)
  {
    var first := ProbeToken(tokens[i], secret[SecretField(tokens[i])], s, inputs);
    var rest := ProbeAll(tokens[i + 1..], secret, first.status, inputs);
    assert tokens[i..][0] == tokens[i] && tokens[i..][1..] == tokens[i + 1..];
    assert requests + (first.requests + rest.requests) == requests + first.requests + rest.requests;
  }

  lemma {:induction false} NothingReported(
      conditions: seq<Condition>, tokens: seq<TokenKind>, report: TokenKind -> Option<Condition>, now: Time)
    requires forall t :: t in tokens ==> report(t).None?
    ensures ReportEach(conditions, tokens, report, now) == (conditions, false)
    decreases |tokens|
  {
    if tokens != [] {
      NothingReported(conditions, tokens[1..], report, now);
    }
  }
}

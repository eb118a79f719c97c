/**
 * A OneAgent and a OneAgentAPM of one name: neither the names nor the labels of their Istio objects tell them apart, so
 * each treats the other's objects as its own.
 */
module IstioSharing {
  import opened Common
  import opened IstioObjects
  import opened IstioController
  import opened IstioConvergence
  import opened IstioSafety

  /** The names a pass of this object wants or keeps under some role. */
  function Used(env: Env, inputs: Inputs): set<string>
    requires Answered(inputs)
  {
    Names(env, [inputs.apiHost.value]) + Names(env, inputs.endpoints.value)
  }

  /** Both objects use the name under the same role. */
  predicate Shared(env: Env, i1: Inputs, i2: Inputs, n: string)
    requires Answered(i1) && Answered(i2)
  {
    || n == env.Name(i1.apiHost.value) == env.Name(i2.apiHost.value)
    || (n in Names(env, i1.endpoints.value) && n in Names(env, i2.endpoints.value))
  }

  predicate AllShared(env: Env, i1: Inputs, i2: Inputs)
    requires Answered(i1) && Answered(i2)
  {
    forall n :: n in Used(env, i1) + Used(env, i2) ==> Shared(env, i1, i2, n)
  }

  /** A pass for each of the two reports no change. */
  predicate BothQuiet(env: Env, w: World, i1: Inputs, i2: Inputs) {
    && Pass(env, w, i1).result == Some(false)
    && Pass(env, Pass(env, w, i1).world, i2).result == Some(false)
  }

  lemma QuietIsSettled(env: Env, w: World, inputs: Inputs)
    requires Quiet(env) && Hashes(env) && Answered(inputs)
    ensures Pass(env, w, inputs).result == Some(false) <==>
            ApiSettled(env, w, inputs) && EndpointsSettled(env, w, inputs)
    ensures Pass(env, w, inputs).result == Some(false) ==> SameObjects(w, Pass(env, w, inputs).world)
  {
    PassProgress(env, w, inputs);
  }

  lemma BothQuietIsSettled(env: Env, w: World, i1: Inputs, i2: Inputs)
    requires Quiet(env) && Hashes(env) && Answered(i1) && Answered(i2)
    ensures BothQuiet(env, w, i1, i2) <==>
            && ApiSettled(env, w, i1) && EndpointsSettled(env, w, i1)
            && ApiSettled(env, w, i2) && EndpointsSettled(env, w, i2)
  {
    QuietIsSettled(env, w, i1);
    QuietIsSettled(env, Pass(env, w, i1).world, i2);
  }

  /** What is settled for both is used by both under the role it is labelled with. */
  lemma SettledIsShared(env: Env, w: World, i1: Inputs, i2: Inputs, n: string)
    requires Answered(i1) && Answered(i2)
    requires ApiSettled(env, w, i1) && EndpointsSettled(env, w, i1)
    requires ApiSettled(env, w, i2) && EndpointsSettled(env, w, i2)
    requires n in Used(env, i1) + Used(env, i2) && !ForeignAt(env.instance, w.ses.items, n)
    ensures Shared(env, i1, i2, n)
  {
    assert n in w.ses.items;
    var labels := w.ses.items[n].labels;
    if Selects(env.RoleLabels(API_ROLE), labels) {
      SeenUnder(env, w, [i1.apiHost.value], API_ROLE, n);
      SeenUnder(env, w, [i2.apiHost.value], API_ROLE, n);
    } else {
      SeenUnder(env, w, i1.endpoints.value, ENDPOINT_ROLE, n);
      SeenUnder(env, w, i2.endpoints.value, ENDPOINT_ROLE, n);
    }
  }

  lemma SeenUnder(env: Env, w: World, hosts: seq<CommunicationHost>, role: string, n: string)
    requires RoleSettled(env, w, hosts, role)
    requires n in w.ses.items && Selects(env.RoleLabels(role), w.ses.items[n].labels)
    ensures n in Names(env, hosts)
  {
    assert n !in Doomed(w.ses.items, env.RoleLabels(role), Names(env, hosts));
  }

  // ---------- alternating passes ----------

  /** The store after so many rounds of a pass for the one and a pass for the other. */
  function Rounds(env: Env, w: World, i1: Inputs, i2: Inputs, rounds: nat): World
    decreases rounds
  {
    if rounds == 0 then w
    else Rounds(env, Pass(env, Pass(env, w, i1).world, i2).world, i1, i2, rounds - 1)
  }

  lemma {:induction false} RoundsSameForeign(env: Env, w: World, i1: Inputs, i2: Inputs, rounds: nat, n: string)
    ensures SameForeign(env, w, Rounds(env, w, i1, i2, rounds), n)
    decreases rounds
  {
    if rounds > 0 {
      var w1 := Pass(env, w, i1).world;
      PassSameForeign(env, w, i1, n);
      PassSameForeign(env, w1, i2, n);
      RoundsSameForeign(env, Pass(env, w1, i2).world, i1, i2, rounds - 1, n);
    }
  }

  /**
   * A name that one of the two uses and they do not share, and that no third party holds, keeps them undoing each
   * other:
   * after any number of rounds without failures the next round changes something again.
   */
  lemma NeverBothQuiet(env: Env, w: World, i1: Inputs, i2: Inputs, rounds: nat, n: string)
    requires Quiet(env) && Hashes(env) && Answered(i1) && Answered(i2)
    requires n in Used(env, i1) + Used(env, i2) && !Shared(env, i1, i2, n)
    requires !ForeignAt(env.instance, w.ses.items, n)
    ensures !BothQuiet(env, Rounds(env, w, i1, i2, rounds), i1, i2)
  {
    var w' := Rounds(env, w, i1, i2, rounds);
    RoundsSameForeign(env, w, i1, i2, rounds, n);
    BothQuietIsSettled(env, w', i1, i2);
    if BothQuiet(env, w', i1, i2) {
      SettledIsShared(env, w', i1, i2, n);
      assert false;
    }
  }

  // ---------- exactly when the two can be settled together ----------

  function RoleOf(env: Env, i1: Inputs, i2: Inputs, n: string): string
    requires Answered(i1) && Answered(i2)
  {
    if n in Names(env, i1.endpoints.value) && n in Names(env, i2.endpoints.value) then ENDPOINT_ROLE else API_ROLE
  }

  function Routed(env: Env, inputs: Inputs): set<string>
    requires Answered(inputs)
  {
    RoutedNames(env, [inputs.apiHost.value]) + RoutedNames(env, inputs.endpoints.value)
  }

  /** Every name that is used, under the role in which both use it. */
  function Agreed(env: Env, i1: Inputs, i2: Inputs): World
    requires Answered(i1) && Answered(i2)
  {
    var entry, service := ServiceEntry([], [], "", 0, "", ResolveNone), VirtualService([], NoRoute);
    World(
      View(map n | n in Used(env, i1) + Used(env, i2) :: Stored(env.RoleLabels(RoleOf(env, i1, i2, n)), entry), 0),
      View(map n | n in Routed(env, i1) + Routed(env, i2) ::
          Stored(env.RoleLabels(RoleOf(env, i1, i2, n)), service), 0))
  }

  lemma AgreedSettlesRole(env: Env, i1: Inputs, i2: Inputs, hosts: seq<CommunicationHost>, role: string)
    requires Answered(i1) && Answered(i2) && (role == API_ROLE || role == ENDPOINT_ROLE)
    requires Names(env, hosts) <= Used(env, i1) + Used(env, i2)
    requires RoutedNames(env, hosts) <= Routed(env, i1) + Routed(env, i2)
    requires Routed(env, i1) + Routed(env, i2) <= Used(env, i1) + Used(env, i2)
    requires forall n :: n in Used(env, i1) + Used(env, i2) && RoleOf(env, i1, i2, n) == role ==> n in Names(env, hosts)
    ensures RoleSettled(env, Agreed(env, i1, i2), hosts, role)
  {
    var w, labels := Agreed(env, i1, i2), env.RoleLabels(role);
    forall n | n in Used(env, i1) + Used(env, i2) && Selects(labels, env.RoleLabels(RoleOf(env, i1, i2, n)))
      ensures n in Names(env, hosts)
    {
      RolesExclusive(env, env.RoleLabels(RoleOf(env, i1, i2, n)));
      SelectsSelf(env.RoleLabels(RoleOf(env, i1, i2, n)));
    }
  }

  lemma AgreedSettles(env: Env, i1: Inputs, i2: Inputs)
    requires Answered(i1) && Answered(i2) && AllShared(env, i1, i2)
    ensures var w := Agreed(env, i1, i2);
            && ApiSettled(env, w, i1) && EndpointsSettled(env, w, i1)
            && ApiSettled(env, w, i2) && EndpointsSettled(env, w, i2)
  {
    RoutedAreNames(env, [i1.apiHost.value]);
    RoutedAreNames(env, [i2.apiHost.value]);
    RoutedAreNames(env, i1.endpoints.value);
    RoutedAreNames(env, i2.endpoints.value);
    assert |API_ROLE| != |ENDPOINT_ROLE|;
    assert i1.apiHost.value in [i1.apiHost.value] && i2.apiHost.value in [i2.apiHost.value];
    AgreedSettlesRole(env, i1, i2, [i1.apiHost.value], API_ROLE);
    AgreedSettlesRole(env, i1, i2, [i2.apiHost.value], API_ROLE);
    AgreedSettlesRole(env, i1, i2, i1.endpoints.value, ENDPOINT_ROLE);
    AgreedSettlesRole(env, i1, i2, i2.endpoints.value, ENDPOINT_ROLE);
  }

  /** None of the names the two use is held by a third party. */
  ghost predicate NoneTaken(env: Env, w: World, i1: Inputs, i2: Inputs)
    requires Answered(i1) && Answered(i2)
  {
    forall n :: n in Used(env, i1) + Used(env, i2) ==> !ForeignAt(env.instance, w.ses.items, n)
  }

  /** Some store without third parties satisfies both exactly when they share every name under one role. */
  lemma SettledTogetherIff(env: Env, i1: Inputs, i2: Inputs)
    requires Quiet(env) && Hashes(env) && Answered(i1) && Answered(i2)
    ensures (exists w :: NoneTaken(env, w, i1, i2) && BothQuiet(env, w, i1, i2)) <==> AllShared(env, i1, i2)
  {
    if w :| NoneTaken(env, w, i1, i2) && BothQuiet(env, w, i1, i2) {
      BothQuietIsSettled(env, w, i1, i2);
      forall n | n in Used(env, i1) + Used(env, i2) ensures Shared(env, i1, i2, n) {
        SettledIsShared(env, w, i1, i2, n);
      }
    }
    if AllShared(env, i1, i2) {
      var w := Agreed(env, i1, i2);
      AgreedSettles(env, i1, i2);
      BothQuietIsSettled(env, w, i1, i2);
      forall n | n in Used(env, i1) + Used(env, i2) ensures !ForeignAt(env.instance, w.ses.items, n) {
        SelectsSelf(env.RoleLabels(RoleOf(env, i1, i2, n)));
      }
      assert NoneTaken(env, w, i1, i2);
    }
  }

  // ---------- when they settle from every store ----------

  /** The two want the same names under the same roles, and the same of them routed. */
  predicate SameNames(env: Env, i1: Inputs, i2: Inputs)
    requires Answered(i1) && Answered(i2)
  {
    && Names(env, [i1.apiHost.value]) == Names(env, [i2.apiHost.value])
    && Names(env, i1.endpoints.value) == Names(env, i2.endpoints.value)
    && RoutedNames(env, [i1.apiHost.value]) == RoutedNames(env, [i2.apiHost.value])
    && RoutedNames(env, i1.endpoints.value) == RoutedNames(env, i2.endpoints.value)
  }

  lemma SameDistance(env: Env, w: World, i1: Inputs, i2: Inputs)
    requires Answered(i1) && Answered(i2) && SameNames(env, i1, i2)
    ensures Distance(env, w, i1) == Distance(env, w, i2)
  {
  }

  /** Then a round brings the store two passes closer to the fixpoint that the two have in common. */
  lemma RoundProgress(env: Env, w: World, i1: Inputs, i2: Inputs)
    requires Quiet(env) && Hashes(env) && Answered(i1) && Answered(i2) && SameNames(env, i1, i2)
    ensures var w' := Pass(env, Pass(env, w, i1).world, i2).world;
            Distance(env, w', i1) + 2 <= Distance(env, w, i1) || Distance(env, w', i1) == 0
  {
    var w1 := Pass(env, w, i1).world;
    PassProgress(env, w, i1);
    SameDistance(env, w1, i1, i2);
    PassProgress(env, w1, i2);
    SameDistance(env, Pass(env, w1, i2).world, i1, i2);
  }

  lemma {:induction false} RoundsApproach(env: Env, w: World, i1: Inputs, i2: Inputs, rounds: nat)
    requires Quiet(env) && Hashes(env) && Answered(i1) && Answered(i2) && SameNames(env, i1, i2)
    requires Distance(env, w, i1) <= 2 * rounds
    ensures Distance(env, Rounds(env, w, i1, i2, rounds), i1) == 0
    decreases rounds
  {
    if rounds > 0 {
      RoundProgress(env, w, i1, i2);
      RoundsApproach(env, Pass(env, Pass(env, w, i1).world, i2).world, i1, i2, rounds - 1);
    }
  }

  /** From any store, two that want the same names leave each other alone after two rounds. */
  lemma SameNamesSettle(env: Env, w: World, i1: Inputs, i2: Inputs, rounds: nat)
    requires Quiet(env) && Hashes(env) && Answered(i1) && Answered(i2) && SameNames(env, i1, i2) && rounds >= 2
    ensures BothQuiet(env, Rounds(env, w, i1, i2, rounds), i1, i2)
  {
    var w' := Rounds(env, w, i1, i2, rounds);
    RoundsApproach(env, w, i1, i2, rounds);
    SameDistance(env, w', i1, i2);
    BothQuietIsSettled(env, w', i1, i2);
  }
}

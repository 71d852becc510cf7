/** What the provider operations achieve: connections come and go with their secrets, tests decide the
    status, and models need an active connection. */
module ProviderProgress {
  import opened Common
  import opened Providers

  lemma RunTwo(s: State, a: Action, b: Action)
    ensures Run(s, [a, b]) == Step(Step(s, a), b)
  {
    assert [a, b][..1] == [a] && [a][..0] == [];
    assert Run(s, [a]) == Step(Run(s, []), a);
  }

  lemma RunThree(s: State, a: Action, b: Action, c: Action)
    ensures Run(s, [a, b, c]) == Step(Step(Step(s, a), b), c)
  {
    assert [a, b, c][..2] == [a, b];
    RunTwo(s, a, b);
  }

  // ---- connections and secrets ----

  /** A new connection is untested, and its secret is stored for its tenant. */
  lemma CreationStores(s: State, op: OpId, tenant: Tenant, kind: nat, added: SecretRef, id: ProviderId)
    requires op !in s.ops && added !in s.drawn && id !in s.providers
    ensures var t := Run(s, [StartCreate(op, tenant, kind, added), CommitCreate(op, id)]);
      && t.providers == s.providers[id := Connection(tenant, kind, added, Untested)]
      && t.store == s.store[added := tenant] && t.ops == s.ops && t.leaked == s.leaked && t.models == s.models
  {
    RunTwo(s, StartCreate(op, tenant, kind, added), CommitCreate(op, id));
    assert s.ops[op := Creating(tenant, kind, added)] - {op} == s.ops;
  }

  /** A creation that fails takes its secret back. */
  lemma FailedCreationLeavesNothing(s: State, op: OpId, tenant: Tenant, kind: nat, added: SecretRef)
    requires op !in s.ops && added !in s.drawn && added !in s.store
    ensures var t := Run(s, [StartCreate(op, tenant, kind, added), FailAndCleanUp(op, true)]);
      && t.providers == s.providers && t.store == s.store && t.ops == s.ops && t.leaked == s.leaked
  {
    RunTwo(s, StartCreate(op, tenant, kind, added), FailAndCleanUp(op, true));
    assert s.ops[op := Creating(tenant, kind, added)] - {op} == s.ops;
    assert s.store[added := tenant] - {added} == s.store;
  }

  /** A rotation leaves the connection with the new secret, untested, and deletes the old one. */
  lemma RotationReplaces(s: State, op: OpId, id: ProviderId, added: SecretRef)
    requires op !in s.ops && added !in s.drawn && id in s.providers
    requires s.providers[id].secretRef in s.store && s.store.Keys <= s.drawn
    ensures var c := s.providers[id];
      var t := Run(s, [StartRotate(op, c.tenant, id, added), CommitRotate(op), RetireSecret(op, true)]);
      && t.providers == s.providers[id := Connection(c.tenant, c.kind, added, Untested)]
      && t.store == (s.store[added := c.tenant]) - {c.secretRef} && c.secretRef != added && t.ops == s.ops
  {
    var c := s.providers[id];
    RunThree(s, StartRotate(op, c.tenant, id, added), CommitRotate(op), RetireSecret(op, true));
    assert s.ops[op := Rotating(c.tenant, id, added)][op := Retiring(c.tenant, c.secretRef)] - {op} == s.ops;
  }

  /** A deletion removes the connection and its secret, unless a model of the tenant refers to it. */
  lemma DeletionRemoves(s: State, op: OpId, id: ProviderId)
    requires op !in s.ops && id in s.providers
    ensures var c := s.providers[id];
      var t := Run(s, [CommitDelete(op, c.tenant, id), RetireSecret(op, true)]);
      if exists m :: m in s.models && s.models[m].tenant == c.tenant && s.models[m].provider == id then t == s
      else t.providers == s.providers - {id} && t.store == s.store - {c.secretRef} && t.ops == s.ops
  {
    var c := s.providers[id];
    RunTwo(s, CommitDelete(op, c.tenant, id), RetireSecret(op, true));
    assert s.ops[op := Retiring(c.tenant, c.secretRef)] - {op} == s.ops;
  }

  /** Another tenant's connection cannot be rotated, deleted or tested. */
  lemma ForeignConnectionIsSafe(s: State, op: OpId, tenant: Tenant, id: ProviderId, added: SecretRef)
    requires id in s.providers && s.providers[id].tenant != tenant
    ensures Step(s, StartRotate(op, tenant, id, added)) == s
    ensures Step(s, CommitDelete(op, tenant, id)) == s && Step(s, StartTest(op, tenant, id)) == s
  {
  }

  // ---- tests ----

  function TestOf(op: OpId, tenant: Tenant, id: ProviderId, outcome: Outcome): seq<Action> {
    [StartTest(op, tenant, id), CallProvider(op, outcome), CommitTest(op)]
  }

  /** A test that nothing interferes with: passing makes the connection active, a refused key makes it
      invalid, whatever it was before, and any other failure leaves its status. */
  lemma TestDecidesStatus(s: State, op: OpId, id: ProviderId, outcome: Outcome)
    requires op !in s.ops && id in s.providers && s.providers[id].status != Disabled
    requires s.providers[id].secretRef in s.store
    ensures var c := s.providers[id];
      var t := Run(s, TestOf(op, c.tenant, id, outcome));
      var status := if outcome == Passed then Active else if outcome == AuthFailed then Invalid else c.status;
      && t.providers == s.providers[id := Connection(c.tenant, c.kind, c.secretRef, status)]
      && t.passed == (if outcome == Passed then s.passed + {c.secretRef} else s.passed)
      && t.store == s.store && t.models == s.models && t.ops == s.ops
  {
    var c := s.providers[id];
    RunThree(s, StartTest(op, c.tenant, id), CallProvider(op, outcome), CommitTest(op));
    var testing := Testing(c.tenant, id, c.kind, c.secretRef);
    assert s.ops[op := testing][op := Judged(c.tenant, id, c.kind, c.secretRef, outcome)] - {op} == s.ops;
  }

  /** A disabled connection is not tested, and a verdict on it is not recorded. */
  lemma DisabledIsNotTested(s: State, op: OpId, id: ProviderId)
    requires id in s.providers && s.providers[id].status == Disabled
    ensures op !in s.ops ==> Step(s, StartTest(op, s.providers[id].tenant, id)) == s
    ensures op in s.ops && s.ops[op].Judged? && s.ops[op].provider == id ==>
      Step(s, CommitTest(op)).providers == s.providers
  {
  }

  /** A verdict on a secret that has been replaced since changes no connection. */
  lemma StaleVerdictChangesNothing(s: State, op: OpId)
    requires op in s.ops && s.ops[op].Judged? && s.ops[op].provider in s.providers
    requires s.providers[s.ops[op].provider].secretRef != s.ops[op].tested
    ensures Step(s, CommitTest(op)).providers == s.providers
  {
  }

  // ---- models ----

  /** A model is created exactly under an active connection of its tenant. */
  lemma ModelNeedsActiveConnection(
      s: State, tenant: Tenant, id: ModelId, provider: ProviderId, upstream: string, enabled: bool)
    requires id !in s.models
    ensures var t := Step(s, CreateModel(tenant, id, provider, upstream, enabled));
      if provider in s.providers && s.providers[provider].tenant == tenant && s.providers[provider].status == Active
      then t == s.(models := s.models[id := Model(tenant, provider, upstream, enabled)])
      else t == s
  {
  }

  /** A model may always be disabled; moving, changing or enabling it needs an active connection of its
      tenant, and changes nothing but what was asked for. */
  lemma ModelUpdateNeedsActiveConnection(
      s: State, id: ModelId, provider: Option<ProviderId>, upstream: Option<string>, enabled: Option<bool>)
    requires id in s.models
    ensures var m := s.models[id];
      var t := Step(s, UpdateModel(m.tenant, id, provider, upstream, enabled));
      var target := if provider.Some? then provider.value else m.provider;
      var active := target in s.providers && s.providers[target].tenant == m.tenant
                    && s.providers[target].status == Active;
      if active || (provider.None? && upstream.None? && enabled != Some(true)) then
        t == s.(models := s.models[id := Model(
          m.tenant, target, if upstream.Some? then upstream.value else m.upstream,
          if enabled.Some? then enabled.value else m.enabled)])
      else t == s
  {
  }

  /** A model that nothing refers to can be deleted by its tenant. */
  lemma ModelDeletion(s: State, id: ModelId, tenant: Tenant, referenced: bool)
    requires id in s.models
    ensures Step(s, DeleteModel(tenant, id, referenced)) ==
      if s.models[id].tenant == tenant && !referenced then s.(models := s.models - {id}) else s
  {
  }
}

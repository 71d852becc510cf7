/** Provider connections, their secrets and their models: operations whose secret-store and network
    work happens between two transactions, interleaved in any way, with crashes. */
module Providers {
  import opened Common

  type Tenant = nat
  type SecretRef = nat
  type ProviderId = nat
  type ModelId = nat
  type OpId = nat

  datatype Status = Untested | Active | Invalid | Disabled

  datatype Connection = Connection(tenant: Tenant, kind: nat, secretRef: SecretRef, status: Status)

  datatype Model = Model(tenant: Tenant, provider: ProviderId, upstream: string, enabled: bool)

  datatype Outcome = Passed | AuthFailed | OtherFailure

  /** An operation between its transactions. */
  datatype Op =
    | Creating(tenant: Tenant, kind: nat, added: SecretRef)
    | Rotating(tenant: Tenant, provider: ProviderId, added: SecretRef)
    | Retiring(tenant: Tenant, stale: SecretRef)
    | Testing(tenant: Tenant, provider: ProviderId, kind: nat, tested: SecretRef)
    | Judged(tenant: Tenant, provider: ProviderId, kind: nat, tested: SecretRef, outcome: Outcome)

  /** `leaked` and `passed` record history: stored secrets whose clean-up failed or was cut off, and
      secrets that a connectivity test accepted. A deletion that reported an error may take effect
      later (`LateDelete`). Secret references are drawn at random and never repeat. */
  datatype State = State(
    providers: map<ProviderId, Connection>,
    models: map<ModelId, Model>,
    store: map<SecretRef, Tenant>,
    ops: map<OpId, Op>,
    leaked: set<SecretRef>,
    passed: set<SecretRef>,
    drawn: set<SecretRef>)

  datatype Action =
    | StartCreate(op: OpId, tenant: Tenant, kind: nat, added: SecretRef)
    | CommitCreate(op: OpId, id: ProviderId)
    | StartRotate(op: OpId, tenant: Tenant, id: ProviderId, added: SecretRef)
    | CommitRotate(op: OpId)
    | FailAndCleanUp(op: OpId, cleaned: bool)
    | CommitDelete(op: OpId, tenant: Tenant, id: ProviderId)
    | RetireSecret(op: OpId, cleaned: bool)
    | StartTest(op: OpId, tenant: Tenant, id: ProviderId)
    | CallProvider(op: OpId, outcome: Outcome)
    | CommitTest(op: OpId)
    | GiveUpTest(op: OpId)
    | Crash(op: OpId)
    | LateDelete(ref: SecretRef)
    | Disable(id: ProviderId)
    | CreateModel(tenant: Tenant, id: ModelId, provider: ProviderId, upstream: string, enabled: bool)
    | UpdateModel(
        tenant: Tenant, id: ModelId, newProvider: Option<ProviderId>, newUpstream: Option<string>,
        newEnabled: Option<bool>)
    | DeleteModel(tenant: Tenant, id: ModelId, referenced: bool)

  // ---- transactions ----

  predicate Found(s: State, tenant: Tenant, id: ProviderId) {
    id in s.providers && s.providers[id].tenant == tenant
  }

  /** What a finished test does to the locked row. */
  function Judge(c: Connection, outcome: Outcome): Connection {
    match outcome
    case Passed => c.(status := Active)
    case AuthFailed => c.(status := Invalid)
    case OtherFailure => c
  }

  /** A rotation's part in the locked row: the new secret, untested. */
  function WithSecret(c: Connection, added: SecretRef): Connection {
    c.(secretRef := added, status := Untested)
  }

  /** A test's part in the locked row: nothing, unless it is still the row that was tested. */
  function WithVerdict(c: Connection, tested: SecretRef, kind: nat, outcome: Outcome): Connection {
    if c.secretRef != tested || c.kind != kind || c.status == Disabled then c else Judge(c, outcome)
  }

  ghost predicate Referenced(s: State, tenant: Tenant, id: ProviderId) {
    exists m :: m in s.models && s.models[m].tenant == tenant && s.models[m].provider == id
  }

  function Rotated(s: State, op: OpId, o: Op): State
    requires op in s.ops && s.ops[op] == o && o.Rotating? && Found(s, o.tenant, o.provider)
  {
    var c := s.providers[o.provider];
    s.(providers := s.providers[o.provider := WithSecret(c, o.added)],
       ops := s.ops[op := Retiring(o.tenant, c.secretRef)])
  }

  /** A new secret is stored, in the operation's hands. */
  function Stored(s: State, op: OpId, o: Op, added: SecretRef): State {
    s.(store := s.store[added := o.tenant], drawn := s.drawn + {added}, ops := s.ops[op := o])
  }

  /** The secret is deleted, or left behind. */
  function Discard(s: State, op: OpId, ref: SecretRef, cleaned: bool): State {
    if cleaned then s.(ops := s.ops - {op}, store := s.store - {ref})
    else s.(ops := s.ops - {op}, leaked := s.leaked + {ref})
  }

  /** The new secret of an operation that has one, or the old one it is to delete. */
  function Held(o: Op): Option<SecretRef> {
    match o
    case Creating(_, _, added) => Some(added)
    case Rotating(_, _, added) => Some(added)
    case Retiring(_, stale) => Some(stale)
    case _ => None
  }

  predicate CanUpdateModel(
      s: State, m: Model, provider: Option<ProviderId>, upstream: Option<string>, enabled: Option<bool>)
  {
    (provider.Some? || upstream.Some? || enabled == Some(true)) ==>
      var target := if provider.Some? then provider.value else m.provider;
      Found(s, m.tenant, target) && s.providers[target].status == Active
  }

  function Updated(m: Model, provider: Option<ProviderId>, upstream: Option<string>, enabled: Option<bool>): Model {
    Model(m.tenant,
          if provider.Some? then provider.value else m.provider,
          if upstream.Some? then upstream.value else m.upstream,
          if enabled.Some? then enabled.value else m.enabled)
  }

  /** Actions that cannot happen change nothing. */
  ghost function Step(s: State, a: Action): State {
    match a
    case StartCreate(op, tenant, kind, added) =>
      if op in s.ops || added in s.drawn then s
      else Stored(s, op, Creating(tenant, kind, added), added)
    case CommitCreate(op, id) =>
      if op !in s.ops || !s.ops[op].Creating? || id in s.providers then s
      else
        var o := s.ops[op];
        s.(providers := s.providers[id := Connection(o.tenant, o.kind, o.added, Untested)], ops := s.ops - {op})
    case StartRotate(op, tenant, id, added) =>
      if op in s.ops || added in s.drawn || !Found(s, tenant, id) then s
      else Stored(s, op, Rotating(tenant, id, added), added)
    case CommitRotate(op) =>
      if op !in s.ops || !s.ops[op].Rotating? || !Found(s, s.ops[op].tenant, s.ops[op].provider) then s
      else Rotated(s, op, s.ops[op])
    case FailAndCleanUp(op, cleaned) =>
      if op !in s.ops || !(s.ops[op].Creating? || s.ops[op].Rotating?) then s
      else Discard(s, op, s.ops[op].added, cleaned)
    case CommitDelete(op, tenant, id) =>
      if op in s.ops || !Found(s, tenant, id) || Referenced(s, tenant, id) then s
      else s.(providers := s.providers - {id}, ops := s.ops[op := Retiring(tenant, s.providers[id].secretRef)])
    case RetireSecret(op, cleaned) =>
      if op !in s.ops || !s.ops[op].Retiring? then s else Discard(s, op, s.ops[op].stale, cleaned)
    case StartTest(op, tenant, id) =>
      if op in s.ops || !Found(s, tenant, id) || s.providers[id].status == Disabled then s
      else s.(ops := s.ops[op := Testing(tenant, id, s.providers[id].kind, s.providers[id].secretRef)])
    case CallProvider(op, outcome) =>
      if op !in s.ops || !s.ops[op].Testing? then s
      else
        var o := s.ops[op];
        if o.tested !in s.store then s.(ops := s.ops - {op})
        else s.(ops := s.ops[op := Judged(o.tenant, o.provider, o.kind, o.tested, outcome)],
                passed := if outcome == Passed then s.passed + {o.tested} else s.passed)
    case CommitTest(op) =>
      if op !in s.ops || !s.ops[op].Judged? then s
      else
        var o, rest := s.ops[op], s.(ops := s.ops - {op});
        if !Found(s, o.tenant, o.provider) then rest
        else
          var row := WithVerdict(s.providers[o.provider], o.tested, o.kind, o.outcome);
          rest.(providers := s.providers[o.provider := row])
    case GiveUpTest(op) =>
      if op !in s.ops || !(s.ops[op].Testing? || s.ops[op].Judged?) then s else s.(ops := s.ops - {op})
    case Crash(op) =>
      if op !in s.ops then s
      else s.(ops := s.ops - {op}, leaked := s.leaked + if Held(s.ops[op]).Some? then {Held(s.ops[op]).value} else {})
    case LateDelete(ref) =>
      if ref !in s.leaked then s else s.(store := s.store - {ref}, leaked := s.leaked - {ref})
    case Disable(id) =>
      if id !in s.providers then s else s.(providers := s.providers[id := s.providers[id].(status := Disabled)])
    case CreateModel(tenant, id, provider, upstream, enabled) =>
      if id in s.models || !Found(s, tenant, provider) || s.providers[provider].status != Active then s
      else s.(models := s.models[id := Model(tenant, provider, upstream, enabled)])
    case UpdateModel(tenant, id, provider, upstream, enabled) =>
      if id !in s.models || s.models[id].tenant != tenant
         || !CanUpdateModel(s, s.models[id], provider, upstream, enabled)
      then s
      else s.(models := s.models[id := Updated(s.models[id], provider, upstream, enabled)])
    case DeleteModel(tenant, id, referenced) =>
      if id !in s.models || s.models[id].tenant != tenant || referenced then s
      else s.(models := s.models - {id})
  }

  ghost function Run(s: State, actions: seq<Action>): State {
    if actions == [] then s else Step(Run(s, actions[..|actions| - 1]), actions[|actions| - 1])
  }

  const START: State := State(map[], map[], map[], map[], {}, {}, {})

  // ---- the row, updated in place ----

  class ConnectionRow {
    var tenant: Tenant
    var kind: nat
    var secretRef: SecretRef
    var status: Status
    var lastTestedAt: Option<int>
    var lastErrorCode: Option<Outcome>

    function Value(): Connection
      reads this
    {
      Connection(tenant, kind, secretRef, status)
    }

    constructor (tenant: Tenant, kind: nat, secretRef: SecretRef)
      ensures Value() == Connection(tenant, kind, secretRef, Untested) && lastTestedAt == None && lastErrorCode == None
    {
      this.tenant, this.kind, this.secretRef, status := tenant, kind, secretRef, Untested;
      lastTestedAt, lastErrorCode := None, None;
    }

    /** The locked part of a rotation: the predecessor is read under the lock. */
    method ReplaceSecret(added: SecretRef) returns (predecessor: SecretRef)
      modifies this
      ensures Value() == WithSecret(old(Value()), added) && predecessor == old(Value()).secretRef
      ensures lastTestedAt == None && lastErrorCode == None
    {
      predecessor := secretRef;
      secretRef, status, lastTestedAt, lastErrorCode := added, Untested, None, None;
    }

    /** The locked part of a test: a stale or disabled row is left alone. */
    method RecordTest(tested: SecretRef, testedKind: nat, outcome: Outcome, now: int) returns (recorded: bool)
      modifies this
      ensures Value() == WithVerdict(old(Value()), tested, testedKind, outcome)
      ensures recorded <==> old(secretRef) == tested && old(kind) == testedKind && old(status) != Disabled
      ensures lastTestedAt == if recorded then Some(now) else old(lastTestedAt)
      ensures lastErrorCode
           == if !recorded then old(lastErrorCode) else if outcome == Passed then None else Some(outcome)
    {
      if secretRef != tested || kind != testedKind {
        return false;
      }
      if status == Disabled {
        return false;
      }
      lastTestedAt := Some(now);
      if outcome == Passed {
        status, lastErrorCode := Active, None;
      } else {
        lastErrorCode := Some(outcome);
        if outcome == AuthFailed {
          status := Invalid;
        }
      }
      recorded := true;
    }
  }

  // ---- the protocol's transactions on the row ----

  /** What the protocol's transactions do to one connection is what the row's methods do, and they
      touch no other: a rotation replaces the secret and hands its predecessor on to be deleted, a
      test records its verdict, and a new connection is untested. */
  lemma TransactionsAreRowUpdates(s: State, op: OpId, id: ProviderId)
    requires op in s.ops
    ensures s.ops[op].Rotating? && Found(s, s.ops[op].tenant, s.ops[op].provider) ==>
      var o, t := s.ops[op], Step(s, CommitRotate(op));
      && t.providers == s.providers[o.provider := WithSecret(s.providers[o.provider], o.added)]
      && t.ops[op] == Retiring(o.tenant, s.providers[o.provider].secretRef)
    ensures s.ops[op].Judged? && Found(s, s.ops[op].tenant, s.ops[op].provider) ==>
      var o, t := s.ops[op], Step(s, CommitTest(op));
      t.providers == s.providers[o.provider := WithVerdict(s.providers[o.provider], o.tested, o.kind, o.outcome)]
    ensures s.ops[op].Creating? && id !in s.providers ==>
      var o, t := s.ops[op], Step(s, CommitCreate(op, id));
      t.providers == s.providers[id := Connection(o.tenant, o.kind, o.added, Untested)]
  {
  }
}

/** What holds in every interleaving of provider operations. */
module ProviderTheorems {
  import opened Common
  import opened Providers

  // ---- secrets ----

  /** Who accounts for a stored secret: a connection, an operation under way, or nobody any more. */
  datatype Holder = ByConnection(id: ProviderId) | ByOperation(op: OpId) | Lost

  ghost predicate Holds(s: State, h: Holder, ref: SecretRef) {
    match h
    case ByConnection(id) => id in s.providers && s.providers[id].secretRef == ref
    case ByOperation(op) => op in s.ops && Held(s.ops[op]) == Some(ref)
    case Lost => ref in s.leaked
  }

  function TenantOf(s: State, h: Holder): Option<Tenant> {
    match h
    case ByConnection(id) => if id in s.providers then Some(s.providers[id].tenant) else None
    case ByOperation(op) => if op in s.ops then Some(s.ops[op].tenant) else None
    case Lost => None
  }

  /** Every held secret is stored under the holder's tenant, and has no other holder. */
  ghost predicate HeldOnce(s: State) {
    && (forall h, ref :: Holds(s, h, ref) ==>
      ref in s.store && (TenantOf(s, h).Some? ==> s.store[ref] == TenantOf(s, h).value))
    && (forall h, g, ref :: Holds(s, h, ref) && Holds(s, g, ref) ==> h == g)
  }

  /** Every stored secret is held. */
  ghost predicate AllHeld(s: State) {
    forall ref :: ref in s.store ==> exists h :: Holds(s, h, ref)
  }

  /** References drawn so far include every one in use. */
  ghost predicate Drawn(s: State) {
    && s.store.Keys <= s.drawn && s.passed <= s.drawn
    && forall op :: op in s.ops && (s.ops[op].Testing? || s.ops[op].Judged?) ==> s.ops[op].tested in s.drawn
  }

  // ---- status and models ----

  /** An active connection's current secret passed a test. */
  ghost predicate ActivePassed(s: State) {
    && (forall id :: id in s.providers && s.providers[id].status == Active ==> s.providers[id].secretRef in s.passed)
    && (forall op :: op in s.ops && s.ops[op].Judged? && s.ops[op].outcome == Passed ==> s.ops[op].tested in s.passed)
  }

  /** Every model's provider exists, in the model's tenant. */
  ghost predicate ModelsResolve(s: State) {
    forall m :: m in s.models ==> Found(s, s.models[m].tenant, s.models[m].provider)
  }

  ghost predicate Inv(s: State) {
    HeldOnce(s) && AllHeld(s) && Drawn(s) && ActivePassed(s) && ModelsResolve(s)
  }

  // ---- each action keeps them ----

  lemma StepKeepsDrawn(s: State, a: Action)
    requires HeldOnce(s) && Drawn(s)
    ensures Drawn(Step(s, a))
  {
    if a.StartTest? && a.id in s.providers {
      assert Holds(s, ByConnection(a.id), s.providers[a.id].secretRef);
    }
  }

  lemma StepKeepsActivePassed(s: State, a: Action)
    requires ActivePassed(s)
    ensures ActivePassed(Step(s, a))
  {
  }

  lemma StepKeepsModels(s: State, a: Action)
    requires ModelsResolve(s)
    ensures ModelsResolve(Step(s, a))
  {
    var t := Step(s, a);
    forall m | m in t.models ensures Found(t, t.models[m].tenant, t.models[m].provider) {
      if m in s.models { assert Found(s, s.models[m].tenant, s.models[m].provider); }
      if a.CommitDelete? && t != s { assert !Referenced(s, a.tenant, a.id); }
    }
  }

  ghost predicate Accounted(s: State) {
    HeldOnce(s) && AllHeld(s)
  }

  /** How a step that stores and deletes nothing passes secrets on: `back` names, for every later
      holder, the one it took its secret from. */
  lemma PassedOn(s: State, t: State, back: Holder -> Holder, on: Holder -> Holder)
    requires Accounted(s) && t.store == s.store
    requires forall h, ref :: Holds(t, h, ref) ==> Holds(s, back(h), ref)
    requires forall h, ref :: Holds(s, h, ref) ==> Holds(t, on(h), ref)
    requires forall h, g, ref :: Holds(t, h, ref) && Holds(t, g, ref) && back(h) == back(g) ==> h == g
    requires forall h, ref :: Holds(t, h, ref) && TenantOf(t, h).Some? ==> TenantOf(s, back(h)) == TenantOf(t, h)
    ensures Accounted(t)
  {
  }

  lemma NothingMoves(s: State, t: State)
    requires Accounted(s) && t.store == s.store && t.leaked == s.leaked
    requires t.providers.Keys == s.providers.Keys
    requires forall id :: id in s.providers ==>
      s.providers[id].secretRef == t.providers[id].secretRef && s.providers[id].tenant == t.providers[id].tenant
    requires forall op :: op in s.ops && Held(s.ops[op]).Some? ==> op in t.ops && t.ops[op] == s.ops[op]
    requires forall op :: op in t.ops && Held(t.ops[op]).Some? ==> op in s.ops && t.ops[op] == s.ops[op]
    ensures Accounted(t)
  {
    PassedOn(s, t, h => h, h => h);
  }

  lemma StoreOne(s: State, t: State, op: OpId, o: Op, ref: SecretRef)
    requires Accounted(s) && ref !in s.store && op !in s.ops && Held(o) == Some(ref)
    requires t.store == s.store[ref := o.tenant] && t.ops == s.ops[op := o]
    requires t.providers == s.providers && t.leaked == s.leaked
    ensures Accounted(t)
  {
    assert forall h, r :: Holds(t, h, r) <==> Holds(s, h, r) || (h == ByOperation(op) && r == ref);
    assert Holds(t, ByOperation(op), ref);
  }

  lemma DeleteOne(s: State, t: State, op: OpId, ref: SecretRef)
    requires Accounted(s) && op in s.ops && Held(s.ops[op]) == Some(ref)
    requires t.store == s.store - {ref} && t.ops == s.ops - {op}
    requires t.providers == s.providers && t.leaked == s.leaked
    ensures Accounted(t)
  {
    assert Holds(s, ByOperation(op), ref);
    assert forall h, r :: Holds(t, h, r) <==> Holds(s, h, r) && h != ByOperation(op);
  }

  lemma LoseOne(s: State, t: State, op: OpId, ref: SecretRef)
    requires Accounted(s) && op in s.ops && Held(s.ops[op]) == Some(ref)
    requires t == s.(ops := s.ops - {op}, leaked := s.leaked + {ref})
    ensures Accounted(t)
  {
    assert Holds(s, ByOperation(op), ref);
    assert forall h, r :: Holds(t, h, r) <==> (Holds(s, h, r) && h != ByOperation(op)) || (h == Lost && r == ref);
    assert forall h, r :: Holds(s, h, r) ==> Holds(t, if h == ByOperation(op) then Lost else h, r);
  }

  lemma LateDeleteIsAccounted(s: State, ref: SecretRef)
    requires Accounted(s)
    ensures Accounted(Step(s, LateDelete(ref)))
  {
    var t := Step(s, LateDelete(ref));
    if t != s {
      assert Holds(s, Lost, ref);
      assert forall h, r :: Holds(t, h, r) <==> Holds(s, h, r) && !(h == Lost && r == ref);
    }
  }

  lemma CreateMoves(s: State, op: OpId, id: ProviderId)
    requires Accounted(s)
    ensures Accounted(Step(s, CommitCreate(op, id)))
  {
    var t := Step(s, CommitCreate(op, id));
    if t != s {
      var ref := s.ops[op].added;
      assert Holds(s, ByOperation(op), ref);
      assert forall h, r ::
        Holds(t, h, r) <==> (Holds(s, h, r) && h != ByOperation(op)) || (h == ByConnection(id) && r == ref);
      assert forall h, r :: Holds(s, h, r) ==> Holds(t, if h == ByOperation(op) then ByConnection(id) else h, r);
    }
  }

  lemma RotationSwaps(s: State, op: OpId)
    requires Accounted(s)
    ensures Accounted(Step(s, CommitRotate(op)))
  {
    var t := Step(s, CommitRotate(op));
    if t != s {
      var o := s.ops[op];
      var mine, theirs := ByOperation(op), ByConnection(o.provider);
      assert Holds(s, mine, o.added) && Holds(s, theirs, s.providers[o.provider].secretRef);
      var swap := h => if h == mine then theirs else if h == theirs then mine else h;
      assert forall h, r :: Holds(t, h, r) <==> Holds(s, swap(h), r);
      PassedOn(s, t, swap, swap);
    }
  }

  lemma DeletionMoves(s: State, op: OpId, tenant: Tenant, id: ProviderId)
    requires Accounted(s)
    ensures Accounted(Step(s, CommitDelete(op, tenant, id)))
  {
    var t := Step(s, CommitDelete(op, tenant, id));
    if t != s {
      var ref := s.providers[id].secretRef;
      assert Holds(s, ByConnection(id), ref);
      assert forall h, r ::
        Holds(t, h, r) <==> (Holds(s, h, r) && h != ByConnection(id)) || (h == ByOperation(op) && r == ref);
      assert forall h, r :: Holds(s, h, r) ==> Holds(t, if h == ByConnection(id) then ByOperation(op) else h, r);
    }
  }

  lemma StartsAreAccounted(s: State, a: Action)
    requires Accounted(s) && Drawn(s) && (a.StartCreate? || a.StartRotate?)
    ensures Accounted(Step(s, a))
  {
    var t := Step(s, a);
    if t != s { StoreOne(s, t, a.op, t.ops[a.op], a.added); }
  }

  lemma EndsAreAccounted(s: State, a: Action)
    requires Accounted(s) && (a.FailAndCleanUp? || a.RetireSecret?)
    ensures Accounted(Step(s, a))
  {
    var t := Step(s, a);
    if t != s {
      var ref := Held(s.ops[a.op]).value;
      if a.cleaned { DeleteOne(s, t, a.op, ref); } else { LoseOne(s, t, a.op, ref); }
    }
  }

  lemma CrashIsAccounted(s: State, op: OpId)
    requires Accounted(s)
    ensures Accounted(Step(s, Crash(op)))
  {
    var t := Step(s, Crash(op));
    if op in s.ops {
      if Held(s.ops[op]).Some? { LoseOne(s, t, op, Held(s.ops[op]).value); } else { NothingMoves(s, t); }
    }
  }

  lemma TestsMoveNothing(s: State, a: Action)
    requires Accounted(s)
    requires a.StartTest? || a.CallProvider? || a.GiveUpTest?
    ensures Accounted(Step(s, a))
  {
    NothingMoves(s, Step(s, a));
  }

  lemma StatusMovesNothing(s: State, a: Action)
    requires Accounted(s) && (a.CommitTest? || a.Disable?)
    ensures Accounted(Step(s, a))
  {
    NothingMoves(s, Step(s, a));
  }

  lemma ModelsMoveNothing(s: State, a: Action)
    requires Accounted(s) && (a.CreateModel? || a.UpdateModel? || a.DeleteModel?)
    ensures Accounted(Step(s, a))
  {
    NothingMoves(s, Step(s, a));
  }

  lemma StepKeepsAccounted(s: State, a: Action)
    requires Accounted(s) && Drawn(s)
    ensures Accounted(Step(s, a))
  {
    if a.StartCreate? || a.StartRotate? {
      StartsAreAccounted(s, a);
    } else if a.CommitCreate? {
      CreateMoves(s, a.op, a.id);
    } else if a.CommitRotate? {
      RotationSwaps(s, a.op);
    } else if a.CommitDelete? {
      DeletionMoves(s, a.op, a.tenant, a.id);
    } else if a.FailAndCleanUp? || a.RetireSecret? {
      EndsAreAccounted(s, a);
    } else if a.Crash? {
      CrashIsAccounted(s, a.op);
    } else if a.LateDelete? {
      LateDeleteIsAccounted(s, a.ref);
    } else if a.CreateModel? || a.UpdateModel? || a.DeleteModel? {
      ModelsMoveNothing(s, a);
    } else if a.CommitTest? || a.Disable? {
      StatusMovesNothing(s, a);
    } else {
      TestsMoveNothing(s, a);
    }
  }

  // ---- every run ----

  lemma {:induction false} RunKeepsInv(actions: seq<Action>)
    ensures Inv(Run(START, actions))
    decreases |actions|
  {
    if actions != [] {
      var n := |actions| - 1;
      RunKeepsInv(actions[..n]);
      var s, a := Run(START, actions[..n]), actions[n];
      StepKeepsAccounted(s, a);
      StepKeepsDrawn(s, a);
      StepKeepsActivePassed(s, a);
      StepKeepsModels(s, a);
    }
  }

  /** In every reachable state: each connection's secret is stored under its tenant and shared with
      no other connection, an active connection's secret passed a test, and each model's provider
      exists in its tenant. */
  lemma ReachableIsConsistent(actions: seq<Action>)
    ensures var s := Run(START, actions);
      && (forall id :: id in s.providers ==>
        s.providers[id].secretRef in s.store && s.store[s.providers[id].secretRef] == s.providers[id].tenant)
      && (forall id, other :: id in s.providers && other in s.providers && id != other ==>
        s.providers[id].secretRef != s.providers[other].secretRef)
      && (forall id :: id in s.providers && s.providers[id].status == Active ==> s.providers[id].secretRef in s.passed)
      && (forall m :: m in s.models ==> Found(s, s.models[m].tenant, s.models[m].provider))
  {
    RunKeepsInv(actions);
    var s := Run(START, actions);
    forall id | id in s.providers
      ensures s.providers[id].secretRef in s.store && s.store[s.providers[id].secretRef] == s.providers[id].tenant
    {
      assert Holds(s, ByConnection(id), s.providers[id].secretRef);
    }
    forall id, other | id in s.providers && other in s.providers && id != other
      ensures s.providers[id].secretRef != s.providers[other].secretRef
    {
      assert Holds(s, ByConnection(id), s.providers[id].secretRef);
      assert Holds(s, ByConnection(other), s.providers[other].secretRef);
    }
  }

  ghost function CurrentSecrets(s: State): set<SecretRef> {
    set id | id in s.providers :: s.providers[id].secretRef
  }

  ghost predicate Quiet(s: State) {
    forall op :: op in s.ops ==> Held(s.ops[op]).None?
  }

  /** With no secret in an operation's hands, the store holds the secrets of the connections and the
      ones that were lost, each secret once. */
  lemma QuietStoreIsExact(actions: seq<Action>)
    requires Quiet(Run(START, actions))
    ensures var s := Run(START, actions);
      s.store.Keys == CurrentSecrets(s) + s.leaked && CurrentSecrets(s) !! s.leaked
  {
    RunKeepsInv(actions);
    var s := Run(START, actions);
    forall ref ensures ref in s.store <==> ref in CurrentSecrets(s) || ref in s.leaked {
      if ref in s.store { var h :| Holds(s, h, ref); }
      if ref in s.leaked { assert Holds(s, Lost, ref); }
      if ref in CurrentSecrets(s) {
        var id :| id in s.providers && s.providers[id].secretRef == ref;
        assert Holds(s, ByConnection(id), ref);
      }
    }
    forall ref | ref in s.leaked && ref in CurrentSecrets(s) ensures false {
      var id :| id in s.providers && s.providers[id].secretRef == ref;
      assert Holds(s, Lost, ref) && Holds(s, ByConnection(id), ref);
    }
  }

  predicate Clean(a: Action) {
    !a.Crash? && (a.FailAndCleanUp? || a.RetireSecret? ==> a.cleaned)
  }

  lemma {:induction false} CleanRunsLoseNothing(actions: seq<Action>)
    requires forall i :: 0 <= i < |actions| ==> Clean(actions[i])
    ensures Run(START, actions).leaked == {}
    decreases |actions|
  {
    if actions != [] {
      var n := |actions| - 1;
      CleanRunsLoseNothing(actions[..n]);
      assert Clean(actions[n]);
    }
  }

  /** After a run without crash or failed clean-up, when no secret is in an operation's hands, the
      store holds exactly the secrets that the connections refer to. */
  lemma CleanStoreIsExact(actions: seq<Action>)
    requires forall i :: 0 <= i < |actions| ==> Clean(actions[i])
    requires Quiet(Run(START, actions))
    ensures Run(START, actions).store.Keys == CurrentSecrets(Run(START, actions))
  {
    CleanRunsLoseNothing(actions);
    QuietStoreIsExact(actions);
  }
}

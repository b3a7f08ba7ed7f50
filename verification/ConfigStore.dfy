/** Active and desired configuration revisions (`src/config/store.rs`, as used by `src/app.rs`). */
module ConfigStore {
  import opened Outcomes

  /** A document and its digest are identified. */
  type Revision = nat

  datatype Pending = Pending(active: Revision, desired: Revision)

  datatype Store = Store(revision: Revision, active: Revision, pending: Option<Pending>)

  datatype StoreError = RevisionConflict | ActivationPending | ActivationConflict | Storage

  function Opened(revision: Revision): Store {
    Store(revision, revision, None)
  }

  /** The desired document differs from the active one exactly while an activation is pending. */
  predicate Consistent(s: Store) {
    match s.pending
    case None => s.revision == s.active
    case Some(p) => p == Pending(s.active, s.revision) && s.revision != s.active
  }

  /** `ok` says whether every file operation of the call succeeds. */
  function Replace(s: Store, expected: Revision, candidate: Revision, ok: bool): (r: Result<Store, StoreError>)
    ensures r.Ok? && Consistent(s) ==> Consistent(r.value) && r.value.active == s.active && r.value.revision == candidate
  {
    if expected != s.revision then Err(RevisionConflict)
    else if candidate == s.revision then Ok(s)
    else if s.pending.Some? then Err(ActivationPending)
    else if !ok then Err(Storage)
    else Ok(Store(candidate, s.active, Some(Pending(s.active, candidate))))
  }

  function ActivateDesired(s: Store, revision: Revision, ok: bool): (r: Result<Store, StoreError>)
    ensures r.Ok? ==> r.value == Opened(revision) && s.revision == revision
  {
    if revision != s.revision then Err(ActivationConflict)
    else if !ok then Err(Storage)
    else Ok(Store(s.revision, s.revision, None))
  }

  function RollbackPending(s: Store, ok: bool): (r: Result<Store, StoreError>)
    ensures r.Ok? ==> r.value.pending.None? && r.value.active == s.active
    ensures r.Ok? && Consistent(s) ==> r.value == Opened(s.active)
  {
    if s.pending.None? then Ok(s)
    else if !ok then Err(Storage)
    else Ok(Store(s.active, s.active, None))
  }

  /** The store with the three operations the generation loop performs under the mutation lock. */
  class CanonicalConfigStore {
    var revision: Revision
    var activeRevision: Revision
    var pending: Option<Pending>

    function View(): Store
      reads this
    {
      Store(revision, activeRevision, pending)
    }

    constructor (start: Revision)
      ensures View() == Opened(start)
    {
      revision, activeRevision, pending := start, start, None;
    }

    method ActivateReadyGeneration(runtimeRevision: Revision, ok: bool) returns (outcome: Result<Option<Revision>, StoreError>)
      requires Consistent(View())
      modifies this
      ensures Consistent(View())
      ensures outcome == Ok(None) <==> old(activeRevision) == runtimeRevision
      ensures outcome.Ok? ==> activeRevision == runtimeRevision
      ensures outcome.Ok? && outcome.value.Some? ==> outcome.value.value == runtimeRevision == old(revision) && View() == Opened(runtimeRevision)
      ensures outcome.Err? || outcome.value.None? ==> View() == old(View())
    {
      if activeRevision == runtimeRevision {
        return Ok(None);
      }
      if runtimeRevision != revision {
        return Err(ActivationConflict);
      }
      if !ok {
        return Err(Storage);
      }
      activeRevision := revision;
      pending := None;
      outcome := Ok(Some(revision));
    }

    method RollbackUnactivatedDesired(ok: bool) returns (error: Option<StoreError>)
      requires Consistent(View())
      modifies this
      ensures Consistent(View()) && activeRevision == old(activeRevision)
      ensures error.None? ==> View() == Opened(old(activeRevision))
      ensures error.Some? ==> View() == old(View()) && pending.Some?
    {
      error := None;
      if pending.Some? {
        if !ok {
          return Some(Storage);
        }
        revision := activeRevision;
        pending := None;
      }
    }

    method RollbackFailedCandidate(runtimeRevision: Revision, ok: bool) returns (restored: Result<Option<Revision>, StoreError>)
      requires Consistent(View())
      modifies this
      ensures Consistent(View()) && activeRevision == old(activeRevision)
      ensures restored == Ok(None) <==> old(pending).None? || old(revision) != runtimeRevision
      ensures restored.Ok? && restored.value.Some? ==> restored.value.value == activeRevision && View() == Opened(activeRevision)
      ensures restored.Err? || restored.value.None? ==> View() == old(View())
    {
      if pending.None? || pending.value.desired != runtimeRevision {
        return Ok(None);
      }
      if !ok {
        return Err(Storage);
      }
      revision := activeRevision;
      pending := None;
      restored := Ok(Some(revision));
    }
  }
}

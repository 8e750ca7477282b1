/**
 The transaction store as the objects it is made of (internal/controller/transaction_store.go), with
 the parts of Sign that change a transaction in place before it is written (internal/controller/signer.go).
 Each operation leaves the API server's objects exactly as the corresponding step of Signer computes them.
 */
module Persistence {
  import opened Basics
  import opened Certificates
  import opened Protocol
  import opened Configuration
  import opened Store
  import opened Signer
  import opened History
  import opened Invariant
  import opened System
  import opened Serial

  /** The in-memory object a reconcile works on and the store fills in. */
  class Transaction {
    var record: Record

    constructor (record: Record)
      ensures this.record == record
    {
      this.record := record;
    }
  }

  datatype LoadError = ReadFailed | StaleNotRemoved

  /**
   Objects are filed under their own name, are different objects, and all identifiers come from the
   server's counter.
   */
  ghost predicate ValidObjects(objects: Objects, next: nat)
  {
    && (forall k :: k in objects ==>
          objects[k].key == k && objects[k].uid < next && objects[k].version < next
          && objects[k].spec.transactionId < next)
    && (forall k, l :: k in objects && l in objects && k != l ==> objects[k].uid != objects[l].uid)
  }

  /** The object, its version and its transaction ID are not those of any stored object. */
  ghost predicate New(stored: Objects, r: Record)
  {
    forall k :: k in stored ==>
      stored[k].uid != r.uid && stored[k].version != r.version && stored[k].spec.transactionId != r.spec.transactionId
  }

  /** The spec of an object does not change, so what was read of it is still what is stored. */
  ghost predicate SpecUnchanged(objects: Objects, r: Record)
  {
    r.key in objects && objects[r.key].uid == r.uid ==> objects[r.key].spec == r.spec
  }

  function Attempt(fails: bool): Input { if fails then Fault else Proceed }

  ghost function Left(effect: Effect): (Objects, nat) { (effect.objects, effect.next) }

  class TransactionStore {
    var objects: Objects
    var next: nat

    ghost predicate Valid()
      reads this
    {
      ValidObjects(objects, next)
    }

    constructor ()
      ensures Valid() && objects == map[] && next == 0
    {
      objects, next := map[], 0;
    }

    /** What a step leaves of the store. */
    ghost predicate LeftBy(effect: Effect)
      reads this
    {
      (objects, next) == Left(effect)
    }

    /**
     A record of another request under this name is removed and not returned. Other writers may change
     the store between the read and the delete; a replacement they wrote survives and is an error.
     */
    method Load(key: SecretKey, requestUid: nat, readFails: bool, between: Objects, reached: nat, deleteFails: bool)
      returns (r: Result<Option<Transaction>, LoadError>)
      requires Valid() && ValidObjects(between, reached)
      modifies this
      ensures Valid()
      ensures r == Err(ReadFailed) <==> readFails
      ensures readFails || key !in old(objects) || old(objects)[key].spec.requestUid == requestUid ==>
                objects == old(objects) && next == old(next)
      ensures !readFails && key !in old(objects) ==> r == Ok(None)
      ensures !readFails && key in old(objects) && old(objects)[key].spec.requestUid == requestUid ==>
                r.Ok? && r.value.Some? && fresh(r.value.value) && r.value.value.record == old(objects)[key]
      ensures !readFails && key in old(objects) && old(objects)[key].spec.requestUid != requestUid ==>
                var stale := old(objects)[key];
                && (r == Ok(None) <==> !deleteFails && (key in between ==> between[key].uid == stale.uid))
                && (r.Ok? ==> r == Ok(None))
                && forall job: Job :: LeftBy(StepDropStale(job, stale, Attempt(deleteFails), between, reached))
    {
      if readFails {
        return Err(ReadFailed);
      }
      if key !in objects {
        return Ok(None);
      }
      var record := objects[key];
      if record.spec.requestUid != requestUid {
        objects, next := between, reached;
        var removed := Delete(record, deleteFails);
        if !removed {
          return Err(StaleNotRemoved);
        }
        return Ok(None);
      }
      var transaction := new Transaction(record);
      return Ok(Some(transaction));
    }

    /** Delete with a UID precondition: a missing object is fine, a replaced one is a conflict. */
    method Delete(record: Record, fails: bool) returns (ok: bool)
      requires Valid()
      modifies this
      ensures Valid() && next == old(next)
      ensures ok <==> !fails && (record.key in old(objects) ==> old(objects)[record.key].uid == record.uid)
      ensures objects == if !fails && CanDelete(old(objects), record) then old(objects) - {record.key} else old(objects)
    {
      if fails {
        return false;
      }
      if record.key !in objects {
        return true;
      }
      if objects[record.key].uid != record.uid {
        return false;
      }
      objects := objects - {record.key};
      return true;
    }

    /** Two writes: the object, then its first phase. Only both together yield a transaction to work on. */
    method Create(key: SecretKey, detail: Spec, createFails: bool, updateFails: bool) returns (r: Option<Transaction>)
      requires Valid()
      modifies this
      ensures Valid()
      ensures r.Some? <==> key !in old(objects) && !createFails && !updateFails
      ensures key in old(objects) || createFails ==> objects == old(objects) && next == old(next)
      ensures key !in old(objects) && !createFails ==>
                key in objects && objects == old(objects)[key := objects[key]] && New(old(objects), objects[key])
      ensures key !in old(objects) && !createFails && updateFails ==> objects[key].status == NewStatus
      ensures r.Some? ==>
                fresh(r.value) && r.value.record == objects[key]
                && objects[key].status == NewStatus.(phase := Enrolling)
      ensures forall w: World, job: Job, plan: Plan, clock: int ::
                job.key == key && detail.(transactionId := old(next) + 1) ==
                    PlannedSpec(w, job, plan, old(next) + 1, clock) ==>
                  LeftBy(CreatingSteps(w, job, plan, createFails, updateFails, old(objects), clock, old(next)))
    {
      hide ValidObjects, PlannedSpec, CreatingSteps, New;
      CreatedIsNew(key, detail, createFails, updateFails, objects, next);
      CreatedIsNew(key, detail, createFails, true, objects, next);
      StepsCreate(key, detail, createFails, updateFails, objects, next);
      if key in objects || createFails {
        return None;
      }
      var transactionId := next + 1;
      var transaction := new Transaction(NewRecord(key, next, next + 2, detail.(transactionId := transactionId)));
      next := next + 3;
      objects := objects[key := transaction.record];
      var recorded := UpdateStatus(transaction, transaction.record.status.(phase := Enrolling), updateFails);
      assert objects == old(objects)[key := objects[key]];
      if !recorded {
        return None;
      }
      return Some(transaction);
    }

    /**
     Status().Update: the object in memory has already changed; the server takes its status only at the
     current version.
     */
    method UpdateStatus(t: Transaction, status: Status, fails: bool) returns (ok: bool)
      requires Valid()
      modifies this, t
      ensures Valid()
      ensures ok <==> !fails && CanUpdate(old(objects), old(t.record))
      ensures ok ==> t.record == Updated(old(objects)[old(t.record.key)], status, old(next))
      ensures ok ==> objects == old(objects)[old(t.record.key) := t.record] && next == old(next) + 1
      ensures !ok ==> t.record == old(t.record).(status := status) && objects == old(objects) && next == old(next)
    {
      t.record := t.record.(status := status);
      if fails || !CanUpdate(objects, t.record) {
        return false;
      }
      t.record := Updated(objects[t.record.key], status, next);
      next := next + 1;
      objects := objects[t.record.key := t.record];
      return true;
    }

    method RecordPending(t: Transaction, pending: PendingTransaction, fails: bool) returns (ok: bool)
      requires Valid()
      modifies this, t
      ensures Valid()
      ensures ok <==> !fails && CanUpdate(old(objects), old(t.record))
      ensures t.record.status == PendingStatus(old(t.record.status), pending)
      ensures var s, s' := old(t.record.status), t.record.status;
              && s' == Status(Polling, s.chain, pending.recipNonce, s'.requestNonce, Some(pending.certReqId),
                              s'.responseSigner, s.polls)
              && s'.requestNonce == (if pending.requestNonce.NoNonce? then s.requestNonce else pending.requestNonce)
              && s'.responseSigner == (if pending.signer.None? then s.responseSigner else pending.signer)
      ensures ok ==> t.record == Updated(old(objects)[old(t.record.key)], t.record.status, old(next))
      ensures ok ==> objects == old(objects)[old(t.record.key) := t.record] && next == old(next) + 1
      ensures !ok ==>
                t.record == old(t.record).(status := t.record.status) && objects == old(objects) && next == old(next)
    {
      ok := UpdateStatus(t, PendingStatus(t.record.status, pending), fails);
    }

    method RecordConfirming(t: Transaction, chain: Path, pending: PendingTransaction, fails: bool) returns (ok: bool)
      requires Valid()
      modifies this, t
      ensures Valid()
      ensures ok <==> !fails && CanUpdate(old(objects), old(t.record))
      ensures t.record.status == ConfirmingStatus(old(t.record.status), chain, pending)
      ensures var s, s' := old(t.record.status), t.record.status;
              && s' == Status(Confirming, chain, pending.recipNonce, pending.requestNonce, Some(pending.certReqId),
                              s'.responseSigner, s.polls)
              && s'.responseSigner == (if pending.signer.None? then s.responseSigner else pending.signer)
      ensures ok ==> t.record == Updated(old(objects)[old(t.record.key)], t.record.status, old(next))
      ensures ok ==> objects == old(objects)[old(t.record.key) := t.record] && next == old(next) + 1
      ensures !ok ==>
                t.record == old(t.record).(status := t.record.status) && objects == old(objects) && next == old(next)
      ensures SpecUnchanged(old(objects), old(t.record)) ==>
                forall a: Answer :: a.to.record == old(t.record) && a.to.purpose.ForEnrollment? ==>
                  LeftBy(StepStoreConfirming(a, chain, pending, Attempt(fails), old(objects), old(next)))
    {
      ok := UpdateStatus(t, ConfirmingStatus(t.record.status, chain, pending), fails);
    }

    method RecordIssued(t: Transaction, chain: Path, fails: bool) returns (ok: bool)
      requires Valid()
      modifies this, t
      ensures Valid()
      ensures ok <==> !fails && CanUpdate(old(objects), old(t.record))
      ensures t.record.status == IssuedStatus(old(t.record.status), chain)
      ensures t.record.status == old(t.record.status).(phase := Issued, chain := chain)
      ensures ok ==> t.record == Updated(old(objects)[old(t.record.key)], t.record.status, old(next))
      ensures !ok ==> t.record == old(t.record).(status := t.record.status)
      ensures SpecUnchanged(old(objects), old(t.record)) ==>
                forall a: Answer :: a.to.record == old(t.record) ==>
                  LeftBy(StepStoreIssued(a, chain, Attempt(fails), old(objects), old(next)))
    {
      ok := UpdateStatus(t, IssuedStatus(t.record.status, chain), fails);
    }

    /** A delete carries the UID that was read, so an object recreated under the name survives. */
    method Remove(t: Transaction, fails: bool) returns (ok: bool)
      requires Valid()
      modifies this
      ensures Valid()
      ensures ok <==> !fails
      ensures forall k :: k in old(objects) && old(objects)[k].uid != t.record.uid ==>
                k in objects && objects[k] == old(objects)[k]
      ensures forall job: Job :: LeftBy(StepDrop(job, t.record, Attempt(fails), old(objects), old(next)))
    {
      var removed := Delete(t.record, fails);
      return !fails;
    }

    // ----- continuePolling and continueConfirming

    /** Only a poll counts against the budget, and it is counted before the write. */
    method ContinuePolling(t: Transaction, pending: PendingTransaction, polled: bool, fails: bool) returns (ok: bool)
      requires Valid()
      modifies this, t
      ensures Valid()
      ensures t.record.status == PendingStatus(CountPoll(old(t.record.status), polled), pending)
      ensures ok <==> !fails && CanUpdate(old(objects), old(t.record))
      ensures SpecUnchanged(old(objects), old(t.record)) && polled == old(t.record.status.phase.Polling?) ==>
                forall a: Answer :: a.to.record == old(t.record) ==>
                  LeftBy(StepStorePending(a, pending, Attempt(fails), old(objects), old(next)))
    {
      if polled {
        t.record := t.record.(status := t.record.status.(polls := t.record.status.polls + 1));
      }
      ok := RecordPending(t, pending, fails);
    }

    method ContinueConfirming(t: Transaction, chain: Path, pending: PendingTransaction, polled: bool, fails: bool)
        returns (ok: bool)
      requires Valid()
      modifies this, t
      ensures Valid()
      ensures t.record.status == ConfirmingStatus(CountPoll(old(t.record.status), polled), chain, pending)
      ensures ok <==> !fails && CanUpdate(old(objects), old(t.record))
      ensures SpecUnchanged(old(objects), old(t.record)) ==>
                forall a: Answer ::
                  a.to.record == old(t.record) && a.to.purpose.ForConfirmation?
                  && polled == a.to.message.body.PollReq? ==>
                  LeftBy(StepStoreConfirming(a, chain, pending, Attempt(fails), old(objects), old(next)))
    {
      if polled {
        t.record := t.record.(status := t.record.status.(polls := t.record.status.polls + 1));
      }
      ok := RecordConfirming(t, chain, pending, fails);
    }
  }

  /** The two steps of create. */
  ghost function CreatingSteps(w: World, job: Job, plan: Plan, createFails: bool, updateFails: bool, objects: Objects,
                               clock: int, next: nat): Effect
  {
    var created := StepCreate(w, job, plan, Attempt(createFails), objects, clock, next);
    if created.pc.MarkEnrolling? then
      StepMarkEnrolling(created.pc.record, created.pc.using, Attempt(updateFails), created.objects, created.next)
    else created
  }

  /** The store after the two writes of create, as far as they succeed. */
  ghost function CreatedStore(key: SecretKey, detail: Spec, createFails: bool, updateFails: bool, objects: Objects,
                              next: nat): (Objects, nat)
  {
    if createFails || key in objects then (objects, next)
    else
      var r := NewRecord(key, next, next + 2, detail.(transactionId := next + 1));
      if updateFails then (objects[key := r], next + 3)
      else (objects[key := Updated(r, NewStatus.(phase := Enrolling), next + 3)], next + 4)
  }

  lemma CreatingLeaves(w: World, job: Job, plan: Plan, detail: Spec, createFails: bool, updateFails: bool,
                       objects: Objects, clock: int, next: nat)
    requires detail.(transactionId := next + 1) == PlannedSpec(w, job, plan, next + 1, clock)
    ensures CreatedStore(job.key, detail, createFails, updateFails, objects, next) ==
            Left(CreatingSteps(w, job, plan, createFails, updateFails, objects, clock, next))
  {
    hide PlannedSpec;
    var r := NewRecord(job.key, next, next + 2, detail.(transactionId := next + 1));
    var r' := Updated(r, NewStatus.(phase := Enrolling), next + 3);
    assert objects[job.key := r][job.key := r'] == objects[job.key := r'];
  }

  lemma StepsCreate(key: SecretKey, detail: Spec, createFails: bool, updateFails: bool, objects: Objects, next: nat)
    ensures forall w: World, job: Job, plan: Plan, clock: int ::
              job.key == key && detail.(transactionId := next + 1) == PlannedSpec(w, job, plan, next + 1, clock) ==>
                Left(CreatingSteps(w, job, plan, createFails, updateFails, objects, clock, next)) ==
                CreatedStore(key, detail, createFails, updateFails, objects, next)
  {
    forall w: World, job: Job, plan: Plan, clock: int
      | job.key == key && detail.(transactionId := next + 1) == PlannedSpec(w, job, plan, next + 1, clock)
      ensures Left(CreatingSteps(w, job, plan, createFails, updateFails, objects, clock, next)) ==
              CreatedStore(key, detail, createFails, updateFails, objects, next)
    {
      CreatingLeaves(w, job, plan, detail, createFails, updateFails, objects, clock, next);
    }
  }

  /** Creating keeps the store valid, and what is created is new. */
  lemma CreatedIsNew(key: SecretKey, detail: Spec, createFails: bool, updateFails: bool, objects: Objects, next: nat)
    requires ValidObjects(objects, next)
    ensures var (objects', next') := CreatedStore(key, detail, createFails, updateFails, objects, next);
            && ValidObjects(objects', next')
            && (key !in objects && !createFails ==> key in objects' && New(objects, objects'[key]))
  {
  }

  /**
   What the operations rely on holds in every run: the store is valid, and no object a reconcile holds
   has changed its spec.
   */
  lemma RunsAreValid(w: World, actions: seq<Action>)
    ensures var s := Exec(w, actions);
            && ValidObjects(s.objects, s.next)
            && forall id :: id in s.workers && Holding(s.workers[id].pc).Some? ==>
              SpecUnchanged(s.objects, Holding(s.workers[id].pc).value)
  {
    hide Exec, Step, Justified, WorkerOk, Holding, Latest, Gone;
    Reachable(w, actions);
    var s := Exec(w, actions);
    forall k, l | k in s.objects && l in s.objects && k != l ensures s.objects[k].uid != s.objects[l].uid {
      assert Stored(s.objects[k]) in s.log && Stored(s.objects[l]) in s.log;
    }
    forall id | id in s.workers && Holding(s.workers[id].pc).Some? ensures SpecUnchanged(s.objects,
        Holding(s.workers[id].pc).value) {
      var r := Holding(s.workers[id].pc).value;
      HoldsOwn(w, s.log, s.workers[id].job, s.workers[id].pc);
      if r.key in s.objects && s.objects[r.key].uid == r.uid {
        assert SameObject(s.objects[r.key], r);
      }
    }
  }
}

/**
 Where a record comes from: one step of one reconcile creates it, and what that reconcile bound it to
 holds for every version, however often other reconciles resume it.
 */
module Creation {
  import opened Basics
  import opened Certificates
  import opened Protocol
  import opened Configuration
  import opened Workload
  import opened Store
  import opened Signer
  import opened History
  import opened Invariant
  import opened System
  import opened Serial
  import opened Theorems

  /** The record is the one that a reconcile about to create would write at this time. */
  ghost predicate CreatedNow(w: World, job: Job, pc: Pc, r: Record, clock: int, next: nat)
  {
    CreatedBy(w, job, r) && r.uid == next && pc.Create? && CreatedWith(w, job, pc.plan, r, clock)
  }

  /** What a step stores is a version of the object it holds, or an object created now by this reconcile. */
  ghost predicate StoresOwn(w: World, job: Job, pc: Pc, clock: int, next: nat, effect: Effect)
  {
    forall r :: Stored(r) in effect.events ==>
      (Holding(pc).Some? && SameObject(Holding(pc).value, r)) || CreatedNow(w, job, pc, r, clock, next)
  }

  lemma CreateStoresOwn(w: World, job: Job, plan: Plan, input: Input, objects: Objects, clock: int, next: nat)
    requires PlanOk(w, job, plan)
    ensures StoresOwn(w, job, Create(plan), clock, next, StepCreate(w, job, plan, input, objects, clock, next))
  {
    CreatedBound(w, [], job, plan, clock, next);
    hide CreatedBy, Bound, Digest;
  }

  lemma OthersStoreOwn(w: World, job: Job, pc: Pc, input: Input, objects: Objects, clock: int, next: nat)
    requires !pc.Create?
    ensures StoresOwn(w, job, pc, clock, next, Step(w, job, pc, input, objects, clock, next))
  {
    hide CreatedNow, Digest, VerifyResponse, EnrollmentOutcome, Confirm, PrepareWorkload, SelectRenewalFallback,
         ValidResumed, TrustedRecordedChain, AfterEnrollment, AfterConfirmation, PendingStatus, ConfirmingStatus,
         RequeueDelay, Receive, StepCreate;
  }

  lemma StepStoresOwn(w: World, log: Log, job: Job, pc: Pc, input: Input, objects: Objects, clock: int, next: nat)
    requires WorkerOk(w, log, job, pc)
    ensures StoresOwn(w, job, pc, clock, next, Step(w, job, pc, input, objects, clock, next))
  {
    hide StoresOwn, PlanOk;
    if pc.Create? {
      CreateStoresOwn(w, job, pc.plan, input, objects, clock, next);
    } else {
      hide Step;
      OthersStoreOwn(w, job, pc, input, objects, clock, next);
    }
  }

  /** A version of this object is in the history. */
  ghost predicate Exists(log: Log, r: Record)
  {
    exists q :: Stored(q) in log && SameObject(q, r)
  }

  /** The n-th action is the step of a reconcile that creates this record: none exists before it, one does after. */
  ghost predicate CreatedAt(w: World, actions: seq<Action>, r: Record, n: nat)
  {
    && n < |actions| && actions[n].Run?
    && var s := Exec(w, actions[..n]);
    && actions[n].id in s.workers
    && var job, pc := s.workers[actions[n].id].job, s.workers[actions[n].id].pc;
    && CreatedBy(w, job, r) && pc.Create? && CreatedWith(w, job, pc.plan, r, s.clock)
    && (forall q :: Stored(q) in s.log ==> q.uid != r.uid)
    && Exists(Exec(w, actions[..n + 1]).log, r)
  }

  /**
   Every version of every record goes back to one creating step: its request, CSR, issuer, operation and
   configuration digest are those of that reconcile, and its deadline is the time of that step plus the
   issuer's maximum duration.
   */
  lemma {:induction false} RecordsAreCreated(w: World, actions: seq<Action>, r: Record)
    requires Stored(r) in Exec(w, actions).log
    ensures exists n: nat :: CreatedAt(w, actions, r, n)
    decreases |actions|, 1
  {
    hide Step, Limits, Holding, Justified, WorkerOk, Current, Consistent, CreatedBy;
    var last := |actions| - 1;
    var before, s := actions[..last], Exec(w, actions[..last]);
    Reachable(w, before);
    if Stored(r) in s.log {
      CreatedEarlier(w, actions, r, r);
    } else {
      var action := actions[last];
      assert action.Run? && action.id in s.workers;
      var worker := s.workers[action.id];
      StepStoresOwn(w, s.log, worker.job, worker.pc, action.input, s.objects, s.clock, s.next);
      if CreatedNow(w, worker.job, worker.pc, r, s.clock, s.next) {
        assert actions[..last + 1] == actions;
        assert CreatedAt(w, actions, r, last);
      } else {
        HoldsOwn(w, s.log, worker.job, worker.pc);
        CreatedEarlier(w, actions, Holding(worker.pc).value, r);
      }
    }
  }

  /** The creation of an earlier version is the creation of this one. */
  lemma CreatedEarlier(w: World, actions: seq<Action>, p: Record, r: Record)
    requires actions != [] && Stored(p) in Exec(w, actions[..|actions| - 1]).log && SameObject(p, r)
    ensures exists n: nat :: CreatedAt(w, actions, r, n)
    decreases |actions|, 0
  {
    hide Exec, Limits;
    var before := actions[..|actions| - 1];
    RecordsAreCreated(w, before, p);
    var n: nat :| CreatedAt(w, before, p, n);
    assert before[..n] == actions[..n] && before[n] == actions[n] && before[..n + 1] == actions[..n + 1];
    assert CreatedAt(w, actions, r, n);
  }

  /** The same issuer, CSR and certificate revision. */
  predicate SameBasis(job: Job, other: Job)
  {
    job.issuer == other.issuer && job.csr == other.csr && job.metadata.revision == other.metadata.revision
  }

  ghost function CreatorOf(w: World, actions: seq<Action>, n: nat): (job: Job)
    requires n < |actions| && actions[n].Run? && actions[n].id in Exec(w, actions[..n]).workers
  {
    Exec(w, actions[..n]).workers[actions[n].id].job
  }

  /**
   What the creating reconcile wrote is accepted by every reconcile with its issuer, CSR and revision,
   in every version.
   */
  lemma ResumeAcceptsCreated(w: World, actions: seq<Action>, r: Record)
    requires Stored(r) in Exec(w, actions).log
    ensures exists n: nat ::
              CreatedAt(w, actions, r, n) && forall job :: SameBasis(job, CreatorOf(w, actions, n)) ==>
                Resumable(w, job, r)
  {
    hide Exec, Limits;
    RecordsAreCreated(w, actions, r);
    var n: nat :| CreatedAt(w, actions, r, n);
    forall job | SameBasis(job, CreatorOf(w, actions, n)) ensures Resumable(w, job, r) {
    }
  }

  /** What the creating reconcile had loaded, with the transaction ID it was then given. */
  ghost function CreatedUnder(w: World, actions: seq<Action>, n: nat, transactionId: nat): (using: Using)
    requires n < |actions| && actions[n].Run? && actions[n].id in Exec(w, actions[..n]).workers
             && Exec(w, actions[..n]).workers[actions[n].id].pc.Create?
  {
    var using := Exec(w, actions[..n]).workers[actions[n].id].pc.plan.using;
    using.(request := using.request.(transactionId := transactionId))
  }

  /**
   Every message of a record is sent under the issuer, the merged fingerprint map and the workload
   Secrets its creator had loaded, and under the same configuration exactly when the credentials agree
   where a Secret is also a workload Secret.
   */
  lemma BoundToConfiguration(w: World, actions: seq<Action>, t: Transmission)
    requires Sent(t) in Exec(w, actions).log
    ensures exists n: nat ::
              && CreatedAt(w, actions, t.record, n)
              && var created := CreatedUnder(w, actions, n, t.record.spec.transactionId);
                 && t.job.issuer == CreatorOf(w, actions, n).issuer
                 && Merge(t.using.credentials, t.using.workload) == Merge(created.credentials, created.workload)
                 && t.using.workload == created.workload
                 && (t.using == created <==>
                       AgreeOn(t.using.credentials, created.credentials, t.using.workload.Keys))
  {
    hide Exec, Limits, FromSettings, Digest, EnrollmentSent, ConfirmationSent, RejectionSent, Shape, Justified;
    Reachable(w, actions);
    SentFacts(w, Exec(w, actions).log, t);
    RecordsAreCreated(w, actions, t.record);
    var n: nat :| CreatedAt(w, actions, t.record, n);
    Reachable(w, actions[..n]);
    var creator := Exec(w, actions[..n]).workers[actions[n].id];
    assert WorkerOk(w, Exec(w, actions[..n]).log, creator.job, creator.pc);
    var created := CreatedUnder(w, actions, n, t.record.spec.transactionId);
    assert PlanOk(w, creator.job, creator.pc.plan);
    SettingsIgnoreId(w, creator.job.issuer, creator.pc.plan.operation, creator.pc.plan.using, created);
    DigestIff(t.job.issuer, Merge(t.using.credentials, t.using.workload),
              creator.job.issuer, Merge(created.credentials, created.workload));
    SameSettings(w, t.job.issuer, creator.pc.plan.operation, t.using, created);
  }

  lemma SettingsIgnoreId(w: World, issuer: IssuerRef, operation: Operation, a: Using, b: Using)
    requires FromSettings(w, issuer, operation, a)
    requires b == a.(request := a.request.(transactionId := b.request.transactionId))
    ensures FromSettings(w, issuer, operation, b)
  {
  }

  // ----- What the creator had read

  /** The operation is the selected one, or the issuer's fallback from KUR for a reason found in the cluster. */
  ghost predicate Chosen(w: World, job: Job, cluster: Cluster, clock: int, plan: Plan)
  {
    var spec := w.spec(job.issuer).protocol;
    var selected := SelectedOperation(spec, job.metadata.revision);
    match plan.fallback
    case None =>
      && selected == Some(plan.operation)
      && (plan.operation.KUR? && FallbackOperation(spec).Some? ==>
            forall certificate, reason ::
              !Unusable(w.codec, cluster, job.metadata, job.issuer, clock, certificate, reason))
    case Some(reason) =>
      && selected == Some(KUR) && FallbackOperation(spec) == Some(plan.operation)
      && exists certificate :: Unusable(w.codec, cluster, job.metadata, job.issuer, clock, certificate, reason)
  }

  /** The workload keys of the operation were found in the cluster, and their Secrets are what is remembered. */
  ghost predicate Keyed(w: World, job: Job, cluster: Cluster, clock: int, plan: Plan)
  {
    var csr, staged := CsrOf(w, job), SecretKey(job.metadata.namespace, job.metadata.privateKeyAnnotation);
    match plan.operation
    case P10CR => plan.using.workload == map[]
    case IR =>
      exists certificate ::
        && AuthorizeOwner(cluster, job.metadata, job.issuer, plan.fallback.Some?) == Ok(certificate)
        && Staged(w.codec, cluster, job.metadata, certificate, csr, staged)
        && plan.using.workload == map[staged := WorkloadFingerprint(cluster.secrets[staged], [TlsKey])]
    case KUR =>
      exists certificate, current ::
        && KurMaterial(w.codec, cluster, job.metadata, job.issuer, csr, certificate, current,
                       Material(Some(current), csr.key, plan.using.workload))
        && Renews(current, csr, clock) && plan.using.request.protection == Signature(current)
  }

  ghost predicate ReadPlan(w: World, job: Job, read: Input, clock: int, plan: Plan)
  {
    && read.Read? && plan.using.credentials == read.credentials
    && Chosen(w, job, read.classified, clock, plan) && Keyed(w, job, read.prepared, clock, plan)
  }

  lemma ChoosesPlan(w: World, job: Job, cluster: Cluster, clock: int, plan: Plan)
    requires var spec := w.spec(job.issuer).protocol;
             var selected := SelectedOperation(spec, job.metadata.revision);
             && selected.Some?
             && SelectRenewalFallback(w.codec, cluster, spec, job.metadata, job.issuer, selected.value, clock) ==
                Ok((plan.operation, plan.fallback))
    ensures Chosen(w, job, cluster, clock, plan)
  {
    var spec := w.spec(job.issuer).protocol;
    var selected := SelectedOperation(spec, job.metadata.revision);
    OperationSelected(spec, job.metadata.revision);
    hide SelectRenewalFallback, Unusable, SelectedOperation, FallbackOperation;
    if plan.fallback.Some? {
      FallbackIff(w.codec, cluster, spec, job.metadata, job.issuer, selected.value, clock, plan.fallback.value);
    } else {
      FallbackIff(w.codec, cluster, spec, job.metadata, job.issuer, selected.value, clock, CurrentCertificateMissing);
      forall certificate, reason | selected.value.KUR? && FallbackOperation(spec).Some?
        ensures !Unusable(w.codec, cluster, job.metadata, job.issuer, clock, certificate, reason)
      {
        FallbackIff(w.codec, cluster, spec, job.metadata, job.issuer, selected.value, clock, reason);
      }
    }
  }

  lemma KeysPlan(w: World, job: Job, cluster: Cluster, clock: int, plan: Plan, material: Option<Material>)
    requires PrepareWorkload(w.codec, cluster, w.spec(job.issuer).protocol, job.metadata, job.issuer, CsrOf(w, job),
                             plan.operation, plan.fallback, clock) == Ok(material)
    requires plan.using.workload == (if material.Some? then material.value.secrets else map[])
    requires material.Some? && material.value.protection.Some? ==>
               plan.using.request.protection == Signature(material.value.protection.value)
    ensures Keyed(w, job, cluster, clock, plan)
  {
    hide LoadIrMaterial, PrepareKur, AuthorizeOwner, Staged, Updatable, Renews, WorkloadFingerprint;
    match plan.operation
    case P10CR =>
    case IR =>
      IrLoadedIff(w.codec, cluster, w.spec(job.issuer).protocol, job.metadata, job.issuer, CsrOf(w, job), plan.fallback,
                  material.value);
    case KUR =>
      KurPreparedIff(w.codec, cluster, job.metadata, job.issuer, CsrOf(w, job), clock, material.value);
  }

  lemma ConfigureReads(w: World, job: Job, input: Input, objects: Objects, clock: int, next: nat)
    ensures var pc := Step(w, job, Configure(None), input, objects, clock, next).pc;
            pc.Create? ==> ReadPlan(w, job, input, clock, pc.plan)
  {
    hide Chosen, Keyed, SelectRenewalFallback, PrepareWorkload, SelectedOperation, Credentials, ValidTransaction;
    var pc := Step(w, job, Configure(None), input, objects, clock, next).pc;
    if pc.Create? {
      var spec := w.spec(job.issuer).protocol;
      var choice := SelectRenewalFallback(w.codec, input.classified, spec, job.metadata, job.issuer,
                                          SelectedOperation(spec, job.metadata.revision).value, clock);
      assert choice.Ok? && choice.value.0 == pc.plan.operation && choice.value.1 == pc.plan.fallback;
      assert choice == Ok((pc.plan.operation, pc.plan.fallback));
      ChoosesPlan(w, job, input.classified, clock, pc.plan);
      var material :| PrepareWorkload(w.codec, input.prepared, w.spec(job.issuer).protocol, job.metadata, job.issuer,
                                      CsrOf(w, job), pc.plan.operation, pc.plan.fallback, clock) == Ok(material);
      KeysPlan(w, job, input.prepared, clock, pc.plan, material);
    }
  }

  lemma OnlyConfigureCreates(w: World, job: Job, pc: Pc, input: Input, objects: Objects, clock: int, next: nat)
    requires Step(w, job, pc, input, objects, clock, next).pc.Create?
    ensures pc == Configure(None)
  {
    hide Digest, VerifyResponse, EnrollmentOutcome, Confirm, PrepareWorkload, SelectRenewalFallback, ValidResumed,
         TrustedRecordedChain, PendingStatus, ConfirmingStatus, RequeueDelay;
  }

  /** The m-th action read what the plan of this reconcile is made from; it has been about to create ever since. */
  ghost predicate ReadAt(w: World, actions: seq<Action>, id: nat, worker: Worker, m: nat)
  {
    && m < |actions| && actions[m].Run? && actions[m].id == id && worker.pc.Create?
    && ReadPlan(w, worker.job, actions[m].input, Exec(w, actions[..m]).clock, worker.pc.plan)
    && forall k :: m < k <= |actions| ==>
         id in Exec(w, actions[..k]).workers && Exec(w, actions[..k]).workers[id] == worker
  }

  lemma {:induction false} PlanIsRead(w: World, actions: seq<Action>, id: nat)
    requires id in Exec(w, actions).workers && Exec(w, actions).workers[id].pc.Create?
    ensures exists m: nat :: ReadAt(w, actions, id, Exec(w, actions).workers[id], m)
  {
    hide Step, ReadPlan;
    var last := |actions| - 1;
    var before, worker := actions[..last], Exec(w, actions).workers[id];
    var s := Exec(w, before);
    assert actions[..|actions|] == actions;
    if actions[last].Run? && actions[last].id == id {
      var held := s.workers[id];
      OnlyConfigureCreates(w, held.job, held.pc, actions[last].input, s.objects, s.clock, s.next);
      ConfigureReads(w, held.job, actions[last].input, s.objects, s.clock, s.next);
      assert ReadAt(w, actions, id, worker, last);
    } else {
      assert id in s.workers && s.workers[id] == worker;
      PlanIsRead(w, before, id);
      var m: nat :| ReadAt(w, before, id, worker, m);
      ReadBefore(w, actions, id, worker, m);
    }
  }

  lemma ReadBefore(w: World, actions: seq<Action>, id: nat, worker: Worker, m: nat)
    requires actions != [] && ReadAt(w, actions[..|actions| - 1], id, worker, m)
    requires id in Exec(w, actions).workers && Exec(w, actions).workers[id] == worker
    ensures ReadAt(w, actions, id, worker, m)
  {
    hide Exec, ReadPlan;
    var before := actions[..|actions| - 1];
    assert actions[..|actions|] == actions && before[..m] == actions[..m];
    assert forall k :: m < k <= |before| ==> before[..k] == actions[..k];
  }

  /**
   Every version of a record goes back to a read of Secrets and Certificates by the reconcile that
   created it, and its operation, its fallback reason and its workload Secrets are what that read found.
   */
  lemma RecordsAreRead(w: World, actions: seq<Action>, r: Record)
    requires Stored(r) in Exec(w, actions).log
    ensures exists n: nat, m: nat ::
              && CreatedAt(w, actions, r, n)
              && ReadAt(w, actions[..n], actions[n].id, Exec(w, actions[..n]).workers[actions[n].id], m)
  {
    hide Exec, CreatedWith, ReadAt;
    RecordsAreCreated(w, actions, r);
    var n: nat :| CreatedAt(w, actions, r, n);
    PlanIsRead(w, actions[..n], actions[n].id);
  }

  /**
   A record with a fallback reason was created by a reconcile whose read left KUR no certificate to
   update: on those cluster contents KUR preparation fails then and at every later time.
   */
  lemma FallbackIsJustified(w: World, actions: seq<Action>, r: Record)
    requires Stored(r) in Exec(w, actions).log && r.spec.fallback.Some?
    ensures exists n: nat, m: nat ::
              && CreatedAt(w, actions, r, n) && m < n && actions[m].Run? && actions[m].id == actions[n].id
              && actions[m].input.Read?
              && var job, cluster := CreatorOf(w, actions, n), actions[m].input.classified;
                 forall later, csr :: later >= Exec(w, actions[..m]).clock ==>
                   PrepareKur(w.codec, cluster, job.metadata, job.issuer, csr, later).Err?
  {
    hide Exec, PrepareKur, Keyed, Unusable, Limits;
    RecordsAreRead(w, actions, r);
    var n: nat, m: nat :|
      && CreatedAt(w, actions, r, n)
      && ReadAt(w, actions[..n], actions[n].id, Exec(w, actions[..n]).workers[actions[n].id], m);
    var job, cluster := CreatorOf(w, actions, n), actions[m].input.classified;
    assert actions[..n][..m] == actions[..m];
    forall later, csr | later >= Exec(w, actions[..m]).clock
      ensures PrepareKur(w.codec, cluster, job.metadata, job.issuer, csr, later).Err?
    {
      UnusableStays(w, job, cluster, csr, Exec(w, actions[..m]).clock, later, r.spec.fallback.value);
    }
  }

  lemma UnusableStays(w: World, job: Job, cluster: Cluster, csr: Csr, now: int, later: int, reason: Reason)
    requires now <= later
    requires exists certificate :: Unusable(w.codec, cluster, job.metadata, job.issuer, now, certificate, reason)
    ensures PrepareKur(w.codec, cluster, job.metadata, job.issuer, csr, later).Err?
  {
    hide PrepareKur, Unusable, KurMaterial, Renews;
    if m :| PrepareKur(w.codec, cluster, job.metadata, job.issuer, csr, later) == Ok(m) {
      KurPreparedIff(w.codec, cluster, job.metadata, job.issuer, csr, later, m);
      KurIsUsable(w.codec, cluster, job.metadata, job.issuer, csr, later, m, now, reason);
    }
  }
}

/**
 No two messages of a run carry the same sender nonce, so a recorded request nonce names one message.
 */
module Nonces {
  import opened Certificates
  import opened Protocol
  import opened Configuration
  import opened Workload
  import opened Store
  import opened Signer
  import opened History
  import opened Lifetime
  import opened System
  import opened Theorems

  /** Every message so far has a nonce of its own, from before the counter. */
  ghost predicate Distinct(log: Log, next: nat)
  {
    && (forall i :: 0 <= i < |log| && log[i].Sent? ==>
          && log[i].transmission.message.senderNonce.Nonce?
          && log[i].transmission.message.senderNonce.value < next)
    && (forall i, j :: 0 <= i < j < |log| && log[i].Sent? && log[j].Sent? ==>
          log[i].transmission.message.senderNonce != log[j].transmission.message.senderNonce)
  }

  /** A step sends at most one message, under a nonce taken from the counter. */
  ghost predicate SendsNew(effect: Effect, next: nat)
  {
    && next <= effect.next && |effect.events| <= 1
    && (|effect.events| == 1 && effect.events[0].Sent? ==>
          effect.events[0].transmission.message.senderNonce == Nonce(next) && next < effect.next)
  }

  lemma StepSendsNew(w: World, job: Job, pc: Pc, input: Input, objects: Objects, clock: int, next: nat)
    ensures SendsNew(Step(w, job, pc, input, objects, clock, next), next)
  {
    hide Digest, VerifyResponse, EnrollmentOutcome, Confirm, PrepareWorkload, SelectRenewalFallback, ValidResumed,
         TrustedRecordedChain, AfterEnrollment, AfterConfirmation, PendingStatus, ConfirmingStatus, RequeueDelay,
         Receive, RejectionDelivery;
  }

  lemma DistinctAppend(log: Log, next: nat, effect: Effect)
    requires Distinct(log, next) && SendsNew(effect, next)
    ensures Distinct(log + effect.events, effect.next)
  {
    var log' := log + effect.events;
    forall i | 0 <= i < |log'| && log'[i].Sent?
      ensures log'[i].transmission.message.senderNonce.Nonce?
              && log'[i].transmission.message.senderNonce.value < effect.next
              && (i < |log| ==> log'[i].transmission.message.senderNonce.value < next)
    {
      assert i < |log| ==> log'[i] == log[i];
    }
  }

  lemma {:induction false} RunsAreDistinct(w: World, actions: seq<Action>)
    ensures Distinct(Exec(w, actions).log, Exec(w, actions).next)
  {
    if actions != [] {
      var last := |actions| - 1;
      var s := Exec(w, actions[..last]);
      RunsAreDistinct(w, actions[..last]);
      hide Step, Distinct;
      match actions[last]
      case Run(id, input) =>
        if id in s.workers {
          var effect := Step(w, s.workers[id].job, s.workers[id].pc, input, s.objects, s.clock, s.next);
          StepSendsNew(w, s.workers[id].job, s.workers[id].pc, input, s.objects, s.clock, s.next);
          DistinctAppend(s.log, s.next, effect);
        }
      case Collect(key) =>
        if key in s.objects {
          DistinctAppend(s.log, s.next, Effect(Done, s.objects, s.next, [Removed(s.objects[key], Collected)]));
        }
      case _ =>
    }
  }

  /** Two messages of a run with the same sender nonce are the same event. */
  lemma OneMessagePerNonce(w: World, log: Log, i: nat, j: nat)
    requires OfRun(w, log) && i < |log| && j < |log| && log[i].Sent? && log[j].Sent?
    ensures log[i].transmission.message.senderNonce == log[j].transmission.message.senderNonce <==> i == j
  {
    hide Exec;
    var actions :| Exec(w, actions).log == log;
    RunsAreDistinct(w, actions);
  }

  /** The k-th event is the one message of this record that the nonce names. */
  ghost predicate Names(log: Log, nonce: Nonce, r: Record, k: nat)
  {
    && k < |log| && log[k].Sent? && log[k].transmission.record.uid == r.uid
    && forall j :: 0 <= j < |log| && log[j].Sent? ==> (log[j].transmission.message.senderNonce == nonce <==> j == k)
  }

  /** Where an answered message was sent. */
  lemma SentBefore(w: World, log: Log, i: nat, a: Answer) returns (k: nat, m: nat)
    requires OfRun(w, log) && i <= |log| && Answered(a) in log[..i]
    ensures k < m < i && log[k] == Sent(a.to) && log[m] == Answered(a)
    ensures Names(log, a.to.message.senderNonce, a.to.record, k)
  {
    hide OfRun;
    RunsAreLawful(w, log);
    m :| 0 <= m < i && log[m] == Answered(a);
    assert EventOk(w, log[..m], log[m]);
    hide Lawful;
    k :| 0 <= k < m && log[k] == Sent(a.to);
    forall j | 0 <= j < |log| && log[j].Sent?
      ensures log[j].transmission.message.senderNonce == a.to.message.senderNonce <==> j == k
    {
      OneMessagePerNonce(w, log, j, k);
    }
  }

  /**
   What a Polling record polls for: its request nonce names one message of the run, an enrollment of this
   record that was sent, and then answered waiting, before the version was stored; and every other
   Polling version of the record names the same message.
   */
  lemma PollingMessage(w: World, log: Log, i: nat) returns (k: nat, m: nat)
    requires OfRun(w, log) && i < |log| && log[i].Stored? && log[i].record.status.phase.Polling?
    ensures k < m < i && Names(log, log[i].record.status.requestNonce, log[i].record, k)
    ensures log[k].transmission.purpose.ForEnrollment? && log[k].transmission.message.body.Enroll?
    ensures log[m].Answered? && log[m].answer.to == log[k].transmission
            && exists id :: Defers(log[m].answer.response, log[m].answer.to.using.request, id)
    ensures forall q :: Stored(q) in log && q.uid == log[i].record.uid && q.status.phase.Polling? ==>
              q.status.requestNonce == log[i].record.status.requestNonce
  {
    hide OfRun, Defers, Names;
    var r := log[i].record;
    PollingNonce(w, log, i);
    var a, id :| Answered(a) in log[..i] && Defers(a.response, a.to.using.request, id)
                 && a.to.record.uid == r.uid && a.to.purpose.ForEnrollment? && a.to.message.body.Enroll?
                 && a.to.message.senderNonce == r.status.requestNonce;
    k, m := SentBefore(w, log, i, a);
    SameNames(log, r.status.requestNonce, a.to.record, r, k);
    forall q | Stored(q) in log && q.uid == r.uid && q.status.phase.Polling?
      ensures q.status.requestNonce == r.status.requestNonce
    {
      SamePolling(w, log, q, r);
    }
  }

  lemma SameNames(log: Log, nonce: Nonce, p: Record, r: Record, k: nat)
    requires Names(log, nonce, p, k) && p.uid == r.uid
    ensures Names(log, nonce, r, k)
  {
  }

  lemma SamePolling(w: World, log: Log, p: Record, r: Record)
    requires OfRun(w, log) && Stored(p) in log && Stored(r) in log && p.uid == r.uid
    requires p.status.phase.Polling? && r.status.phase.Polling?
    ensures p.status.requestNonce == r.status.requestNonce
  {
    hide OfRun, Justified;
    RunsAreLawful(w, log);
    if p.version < r.version {
      LaterAdvances(w, log, p, r);
    } else if r.version < p.version {
      LaterAdvances(w, log, r, p);
    }
  }

  /**
   What a Confirming record with a request nonce polls for: the nonce names one message of the run, a
   certConf of this record for its leaf that was answered waiting before the version was stored.
   */
  lemma ConfirmingMessage(w: World, log: Log, i: nat) returns (k: nat, m: nat)
    requires OfRun(w, log) && i < |log| && log[i].Stored? && log[i].record.status.phase.Confirming?
             && log[i].record.status.requestNonce.Nonce?
    ensures k < m < i && Names(log, log[i].record.status.requestNonce, log[i].record, k)
    ensures var r, t := log[i].record, log[k].transmission;
            && t.purpose.ForConfirmation? && r.status.chain != []
            && t.message.body.CertConf? && !t.message.body.rejected && t.message.body.certificate == r.status.chain[0]
            && log[m].Answered? && log[m].answer.to == t && DelaysConfirmation(log[m].answer.response)
  {
    hide OfRun, Names, DelaysConfirmation;
    var r := log[i].record;
    ConfirmingNonce(w, log, i);
    var a :| Answered(a) in log[..i] && a.to.record.uid == r.uid && a.to.purpose.ForConfirmation?
             && DelaysConfirmation(a.response) && a.to.message.body.CertConf? && !a.to.message.body.rejected
             && a.to.message.body.certificate == r.status.chain[0]
             && a.to.message.senderNonce == r.status.requestNonce;
    k, m := SentBefore(w, log, i, a);
    SameNames(log, r.status.requestNonce, a.to.record, r, k);
  }
}

# The CMP issuer's crash-safe transaction, verified

A Dafny model of a cert-manager issuer that enrolls certificates over CMP (RFC 9810, RFC 9483). Its core is `Sign`: a
reconcile that drives a durable transaction record through *(unset)* → *Enrolling* → *Polling* → *Confirming* → *Issued*,
or removes it, while talking to a CMP server by enrollment message, pollReq and certConf. The controller can stop
between any two of its actions, several replicas can work on one request, Secrets rotate, issuers change, and requests
are recreated under the same name.

## How the model is built

* `Signer` is `Sign` as a program with 20 control points. One step performs at most one store or network action and
  runs the code up to the next one. Everything read from outside (API faults, Secrets and Certificates, what the network
  delivers) is an input of the step.
* `System` runs any number of such reconciles over one API server and a clock. A run is an arbitrary sequence of
  actions: time passes, a reconcile begins for any request, one step runs with any input, a replica crashes, a record is
  garbage-collected. The network is adversarial: a response is an arbitrary value.
* `History` says what justifies each event (a stored version, a removal, a message, an accepted answer, a returned
  bundle, a requeue) in terms of the events before it, without mentioning control points. `Invariant` and `System` prove
  that every history of every run is justified. `Lifetime` derives from that, by induction over the history, what each
  field of a stored record means, and `Theorems` states the results for all runs. `Creation` ties every record to the
  step that created it, `Nonces` every recorded nonce to the one message it names, `Resumption` says what the next
  reconcile does after any run, `Progress` what it does with everything the network delivers, `Failures` what failures
  and refusals lead to, and `Serial` treats runs whose reconciles do not overlap. `Examples` and `Rotation` hold concrete runs that show where a promise fails.
* The decisions inside the steps are the real ones: `Protocol` (response verification, extraction, refusal,
  confirmation), `Certificates` (path selection, trimming, the recorded chain), `Configuration` (digest, Secret
  fingerprints, limits), `Workload` (operation selection, owner chain, fallback, IR and KUR material), `Names` and
  `DistinguishedName` (order-free name comparison, the name parser).
* Code that loops or updates in place is modelled by methods and classes (`Persistence.TransactionStore`,
  `Configuration.SecretReader`, the sorting, scanning, parsing and selection loops), each proved against a function or
  property that the lemmas then use. Each store operation leaves the objects that the corresponding step of `Signer`
  computes.

Abstractions: hashes are injective, generated identifiers and nonces are new, parsing inverts encoding, an issuer
generation identifies its spec and a Secret version its contents. x509 path building is a parameter; `Sound` says that
it lists exactly the loop-free issuer paths to an anchor, and `Paths` constructs such a verifier. Durations are
nanoseconds; the 64-bit wrap-around of a server's `checkAfter` is modelled.

## What came out of it

* The documented promise that rotating a relevant Secret ends an unfinished transaction (docs/architecture.md:46) fails
  when one Secret is both a credential and a workload Secret, because merging the fingerprint maps overwrites its
  resourceVersion.
  `RotationHiddenIff` gives the exact condition for each Secret and `ConfigurationIff` for the messages of a run;
  `RotationGoesUnnoticed` is a run in which one record sends twice under different credentials and trust anchors.
  The issuer, the workload Secrets and the merged map stay the creator's in every case (`BoundToConfiguration`).
* A configured recipient with two CN or two SERIALNUMBER attributes keeps only the last of each
  (`ParsedNameKeepsComponentsIff`), so a response naming the full authority is refused (`RepeatedCommonNameIsLost`).
* The limit defaults alone can yield a minimum poll interval above the maximum (`LimitsUsableIff`); validation excludes
  that case.
* An authenticated error message that reports success makes an enrollment dereference a missing certificate:
  `SuccessInErrorMessagePanics` is such a run, and `AnswersPanicIff` says that in every run exactly these answers do it.
  The model lets such a reconcile end without further action.
* "No message after issuance" needs reconciles of one request to be serialized: `NoMessageAfterIssued` proves it for
  serialized runs and `RacingReplicaSendsAfterIssued` gives a run of two replicas that breaks it.
* A Confirming record's request nonce speaks of recorded waits (`ConfirmingNonce`). When the write after a waiting answer
  is lost, certConf goes out a second time (`LostWaitRepeatsCertConf`); every accepting certConf comes from the record's
  first Confirming version (`CertConfFromFirstConfirming`).

## Model

| member | source | states |
|---|---|---|
| `System.Reachable` | internal/controller/signer.go:135-261 | In every run, whatever replicas, network, API server and clock do, the store matches the history, every event is justified by earlier ones, and every reconcile knows what its control point requires |
| `Invariant.StepPreserves` | internal/controller/signer.go:135-261 | Each step of Sign, from any control point with any input, keeps that invariant |
| `Theorems.WriteAhead` | internal/controller/signer.go:204-240 | Every message carries the transaction ID of a record that was stored before the send, for the request it is sent for |
| `Theorems.SingleId` | internal/controller/transaction_store.go:88-127 | A message carries a record's ID exactly when it was sent for that record, so no two records or request UIDs share an ID and one lifetime uses one |
| `Theorems.LosersSendNothing` | internal/controller/transaction_store.go:116-126 | A reconcile that loses the create race or the first status write adds no event to any later history: every continuation is, in store, history, clock and other reconciles, the one in which it had crashed before |
| `Theorems.PhasesOnlyAdvance` | internal/controller/signer.go:234-260 | Over a record's lifetime phases never go back and polls never drop, an issued version is the last, and from the first Confirming write the leaf, its id, the signer and a non-empty nonce stay |
| `Lifetime.VersionsInOrder` | internal/controller/transaction_store.go:132-194 | Optimistic concurrency orders the writes: a version is stored later exactly when its version number is larger |
| `Lifetime.LaterAdvances` | internal/controller/transaction_store.go:132-194 | Every later version of a record advances every earlier one, however stale the replicas that wrote them |
| `Theorems.ConfirmedIsDurable` | internal/controller/signer.go:245-252 | An accepting certConf, or a poll for its answer, is sent only for the leaf and id of an already stored Confirming version, which of the two is decided by the recorded nonce, and the message is CMPv3 exactly for a leaf signed with ML-DSA |
| `Theorems.ReturnedIsDurable` | internal/controller/signer.go:253-260 | A bundle is returned only after its leaf is stored in an Issued record of this request |
| `Theorems.OneLeaf` | internal/controller/signer.go:475-490 | All returns of a record's lifetime carry one leaf, from one Issued version |
| `Theorems.ConfirmedIsReturned` | internal/controller/signer.go:423-452 | The certificate confirmed to the server is the certificate returned |
| `Theorems.ReturnedCertifiesRequest` | internal/controller/signer.go:504-527 | Every returned bundle, first or recovered, certifies the public key of the CSR it is returned for |
| `Serial.NoMessageAfterIssued` | internal/controller/signer.go:173-175 | When reconciles of one name do not overlap, no CMP message for a record follows its issuance |
| `Serial.StepKeepsNewest` | internal/controller/transaction_store.go:62-64 | A reconcile that holds the newest version of its record holds the newest one after each step, and sends only from it |
| `Serial.SerializedRuns` | internal/controller/transaction_store.go:62-64 | When reconciles of one name do not overlap, every one of them holds the newest version of its record and every message is sent from the newest version stored so far |
| `Serial.MessagesFollowPhases` | internal/controller/signer.go:558-577 | Then a message comes from a phase no earlier than any its record was stored in before, and never from Issued |
| `Serial.NoSecondEnrollment` | internal/controller/signer.go:558-577 | Then no enrollment message follows a stored Polling version, and no enrollment poll follows a stored certificate: a restart resumes instead of enrolling twice |
| `Examples.RacingReplicaSendsAfterIssued` | internal/controller/signer.go:554-568 | Without serialization two replicas can send after issuance, in a world with a sound verifier; the same run issues and returns a certificate |
| `Theorems.WaitingEnds` | internal/controller/signer.go:593-607 | Recorded polls never exceed the maximum the issuer configures, 60 without one, and a record stores at most maximum + 2 waits |
| `Lifetime.BudgetKept` | internal/controller/signer.go:570-575 | Every stored version is within the budget, is below it when certConf has not been sent, and exhausts it while Confirming only after a confirmation poll was answered |
| `Theorems.FirstConfirmationIsSent` | internal/controller/signer.go:424-429 | Until a confirmation poll has been answered the budget never refuses certConf or its first poll: it goes out exactly when the deadline, the build and the chain allow |
| `Theorems.PollingNonce` | internal/controller/transaction_store.go:178-186 | In Polling the request nonce is that of an enrollment message of this record that was answered waiting before the version was stored |
| `Theorems.ConfirmingNonce` | internal/controller/transaction_store.go:137-142 | A Confirming version has a request nonce exactly when a certConf sent from an earlier version of the record was answered waiting; the nonce is that of such a certConf for its leaf, answered before the version was stored |
| `Nonces.OneMessagePerNonce` | internal/protocol/client.go:104-121 | In every run two messages have the same sender nonce only if they are the same send |
| `Nonces.PollingMessage` | internal/controller/transaction_store.go:178-186 | In Polling the request nonce names exactly one message of the whole run, an enrollment of this record that was sent and then answered waiting before the version was stored, and all Polling versions of the record name the same one |
| `Nonces.ConfirmingMessage` | internal/controller/transaction_store.go:137-142 | In Confirming a request nonce names exactly one message of the whole run, a certConf of this record for its leaf that was answered waiting before the version was stored |
| `Theorems.OnlyFirstConfirmingIsUnsent` | internal/controller/transaction_store.go:137-142 | The first Confirming version, and no other, has an empty request nonce |
| `Theorems.PollFollowsCertConf` | internal/protocol/client.go:937-960 | A resumed confirmation polls only for a certConf of this record that was sent and answered waiting before |
| `Theorems.CertConfFromFirstConfirming` | internal/controller/signer.go:423-446 | An accepting certConf of a record, also a repeated one, is sent only from its first Confirming version |
| `Examples.LostWaitRepeatsCertConf` | internal/controller/signer.go:455-461 | A run, in a world with a sound verifier, in which the write after a waiting answer is lost and the next reconcile sends the same certConf again |
| `Theorems.AnswersAreAuthentic` | internal/protocol/client.go:498-579 | Every answer a reconcile acts on has the right transaction ID, the nonce of the message or, for a poll, of the recorded request it polls for, an allowed version, the addressed sender and permitted protection, and a signer it merely repeats was trusted for this record before |
| `Theorems.OnlyAnswersMoveRecords` | internal/controller/transaction_store.go:132-194 | Every version is new, marks the first phase, or follows from an earlier accepted answer to a message sent from the version it replaces; its response signer chained on an accepted response of the record that came before the version |
| `Lifetime.SignerTrust` | internal/controller/transaction_store.go:187-189 | A stored response signer has legal key usage and chained to the anchors on an accepted response of the same record that came before |
| `Theorems.DeletesAreInstanceSafe` | internal/controller/transaction_store.go:198-213 | A delete removes the instance it was issued for, once and in its newest version, for its own request or a stale one, and nothing is stored in that object afterwards |
| `Theorems.OneRecordPerName` | internal/controller/transaction_store.go:67-85 | A later object under a name appears only after the earlier one was removed, and under a new transaction ID |
| `Theorems.RecordedIsAcceptable` | internal/protocol/client.go:221-273 | A recorded certificate was delivered to this record, before it was recorded, under the recorded id; it certifies the CSR key, has an anchored path of legal usages, honours the modification policy and for KUR changes the validity |
| `Theorems.RejectedIsUnacceptable` | internal/protocol/client.go:1035-1050 | A rejecting certConf names a certificate that an answer to this record delivered, that the server had not confirmed and that is not acceptable, echoes that answer's nonce and is CMPv3 exactly for a leaf signed with ML-DSA |
| `Failures.RefusalsDropTheRecord` | internal/protocol/client.go:201-208 | From any reachable state, a refused certificate is rejected at the server exactly when it was not implicitly confirmed, and the refusal then removes the record, whether or not the rejection can be built and whatever its delivery brings |
| `Failures.ServerFailureEndsRecordIff` | internal/controller/signer.go:610-654 | A failure reported by an authenticated error message or certificate response ends the record, unless it is a system failure without a permanent bit or an error message that waits, which end only the reconcile; a waiting certificate response is recorded |
| `Failures.ConfirmationAnswers` | internal/protocol/client.go:887-1003 | A confirmation ends in issuance exactly on pkiConf, in a recorded wait exactly on a delay, in a retry exactly on a transient error message, and otherwise in the end of the record |
| `Failures.RejectionKeepsRefusal` | internal/protocol/client.go:1035-1063 | A reconcile that awaits the answer to a rejecting certConf has sent it for a certificate an answer to its record delivered; whatever arrives, the next step ends the record for the reason of the refusal, annotated exactly when no authentic pkiConf came back |
| `Failures.DeliveryIff` | internal/protocol/client.go:1007-1028 | A response is acted on exactly when it is authentic, by the nonce of the message or, for a poll, of the request it polls for; one that is not, cannot be read or was refused for good by the transport ends the record, and a transient transport failure ends only the reconcile |
| `Progress.AnswerIff` | internal/protocol/client.go:147-198 | From any reachable state, a delivery to a waiting reconcile enters the history exactly when it is authentic, a poll relying on the recorded signer and a confirmation on the one it resumed with; otherwise store and history stay and the record or only the reconcile ends |
| `Progress.EnrollmentAnswers` | internal/protocol/client.go:190-273 | Every answer to an enrollment or its poll: a wait is recorded exactly when the server has not decided, a certificate is issued, confirmed or rejected as it is acceptable and implicitly confirmed, a failure that may pass ends only the reconcile, and everything else ends the record |
| `Progress.PollAnswers` | internal/protocol/client.go:281-303 | A pollRep to an enrollment poll is another wait exactly when its single entry names the polled request and its time is not negative; every other pollRep ends the record |
| `Progress.WaitIsRecorded` | internal/controller/signer.go:593-607 | An undecided answer is followed by exactly a Polling version with the id, nonces, signer and poll count to go on with, and a retry after the delay for the time the server asked for |
| `Progress.CertificateIsConfirmed` | internal/controller/signer.go:245-252 | A good certificate the server has not confirmed is followed by exactly a Confirming version with its ordered chain and id, and then its certConf unless the deadline has passed |
| `Progress.CertificateIsReturned` | internal/controller/signer.go:253-260 | A good certificate the server confirmed itself is followed by exactly an Issued version with its ordered chain and the return of that chain |
| `Progress.ConfirmedIsIssued` | internal/controller/signer.go:443-452 | A pkiConf is followed by exactly an Issued version with the chain and the return of that chain |
| `Progress.DelayIsRecorded` | internal/controller/signer.go:455-470 | A delayed confirmation is followed by exactly a Confirming version that keeps leaf, id and signer and has the nonces and poll count to go on with, and a retry after the delay |
| `Theorems.CertReqIdEcho` | internal/protocol/client.go:887-967 | After any restarts and delays certConf carries the id the certificate came with before, and that id is 0 for IR and KUR, the pin when pinned, otherwise -1 or 0 |
| `Creation.BoundToConfiguration` | internal/controller/signer.go:206-225 | Every message of a record is sent under the issuer, the merged fingerprint map and the workload Secrets that its creating step had loaded, and under that very configuration exactly when the credentials agree on the Secrets that are also workload Secrets |
| `Theorems.ConfigurationIff` | internal/controller/signer.go:347-352 | Any two messages of a record have the same issuer and workload Secrets, and the same configuration and request exactly when their credentials agree on the Secrets that are also workload Secrets |
| `Theorems.OneConfiguration` | internal/controller/signer.go:347-352 | Without a Secret in both roles, all messages of a lifetime use one configuration and one request |
| `Theorems.OperationIsFixed` | internal/controller/signer.go:169-171 | Every enrollment message uses the recorded operation and no version of a record changes it or its fallback |
| `Creation.ResumeAcceptsCreated` | internal/controller/signer.go:267-288 | Every version of a record is accepted on resume by every reconcile with the issuer, CSR and revision of the reconcile whose step created it |
| `Theorems.ResumableIff` | internal/controller/signer.go:267-288 | A record of a run is resumed exactly for its CSR, its issuer's identity and an operation, or fallback from KUR, that the issuer still allows |
| `Theorems.DeadlineKept` | internal/controller/signer.go:554-557 | No enrollment, poll or accepting confirmation goes out after the recorded deadline |
| `Creation.RecordsAreCreated` | internal/controller/signer.go:203-214 | Every version of a record goes back to one creating step of the run: its request, CSR, issuer, operation and configuration digest are those that reconcile had loaded, and its deadline is the time of that step plus the duration the issuer configures, ten minutes without one |
| `Creation.RecordsAreRead` | internal/controller/signer.go:178-202 | Every version of a record goes back to a read by its creator: the operation is the selected one, or the fallback for a reason found in that read, and the workload Secrets are the staged key of an IR, the current certificate and staged key of a KUR, none otherwise |
| `Creation.FallbackIsJustified` | internal/controller/signer.go:301-313 | A record with a fallback reason was created from a read that left KUR no certificate to update, then and at every later time |
| `Theorems.RetriesAreBounded` | internal/controller/signer.go:593-607 | Every recorded wait is retried after a positive delay, within the maximum and, before the deadline, within the time left |
| `Resumption.EnrollmentIsStarted` | internal/controller/signer.go:203-240 | After any run, a reconcile of a request without a record stores it, marks its phase and then sends the enrollment under the recorded ID, in that order and nothing else, with everything the record and the message hold |
| `Resumption.EnrollmentIsResumed` | internal/controller/signer.go:554-588 | After any run, a new reconcile of an Enrolling or Polling record under the recorded configuration sends exactly the recorded operation under the recorded ID, or the poll the record calls for |
| `Resumption.EnrollmentIsGivenUp` | internal/controller/signer.go:554-577 | Past the deadline, with the poll budget spent or without the state to poll, that reconcile removes the record and sends nothing |
| `Resumption.ConfirmationIsResumed` | internal/controller/signer.go:397-438 | After any run, a new reconcile of a Confirming record under the recorded configuration, with deadline, budget and trust intact, sends exactly the certConf or poll the record calls for, and awaits its answer with the recorded signer and nonces |
| `Resumption.ConfirmationIsGivenUp` | internal/controller/signer.go:397-429 | With the recorded chain no longer trusted, past the deadline or with the budget spent, that reconcile removes the record and sends nothing |
| `Resumption.UnpolledCanConfirm` | internal/controller/signer.go:424-429 | Until a confirmation poll was answered only the deadline can close a confirmation, never the budget |
| `Resumption.IssuedIsRecovered` | internal/controller/signer.go:475-490 | After any run, a new reconcile of an Issued record returns its leaf without another message |
| `Resumption.RecoveryIff` | internal/controller/signer.go:475-501 | Recovery returns a stored chain exactly when its usages are legal, it certifies the CSR key and it is anchored by the trust read now; a trust that cannot be read keeps the record, and everything else drops it |
| `Resumption.MismatchIsRemoved` | internal/controller/signer.go:165-177 | After any run, a record of this request for another CSR, issuer or operation or, unless issued, another generation is removed without a message |
| `Resumption.RotationIsNoticed` | internal/controller/signer.go:222-225 | After any run, a record whose digest the loaded Secrets do not give is removed without a message, and nothing changes when they cannot be loaded |
| `Resumption.StaleIsRemoved` | internal/controller/transaction_store.go:67-85 | After any run, a record another request left under the name is removed and the reconcile goes on without one |
| `Resumption.StaleMakesRoom` | internal/controller/transaction_store.go:67-85 | From any reachable state, removing a stale record lets the reconcile go on exactly when the name is then free, and an object that replaced it stays |
| `Resumption.FaultsLeaveTheStore` | internal/controller/transaction_store.go:116-166 | At every control point a failed call, a failed read or a stale version leaves the store as it is and sends nothing |
| `Lifetime.WaitsAreCounted` | internal/controller/signer.go:455-469 | The waits a history records are at most the counted polls plus one for the enrollment message and one for certConf |
| `Lifetime.NonceMeaning` | internal/controller/transaction_store.go:132-194 | What a stored request nonce says about the messages and answers before it, in each phase |
| `Lifetime.LeafOrigin` | internal/controller/transaction_store.go:132-166 | A recorded leaf was accepted before from an answer to this record's enrollment |
| `Lifetime.ObjectsApart` | internal/controller/transaction_store.go:88-119 | Distinct objects have distinct transaction IDs and never share a name at the same time |
| `Persistence.TransactionStore.Load` | internal/controller/transaction_store.go:67-85 | Returns the record of this request; removes one left by another request unless a concurrent writer replaced it in between, which survives and is an error; and leaves the store alone on errors |
| `Persistence.TransactionStore.Delete` | internal/controller/transaction_store.go:198-213 | Deletes exactly the instance with the given UID; a missing object is fine and a replaced one a conflict |
| `Persistence.TransactionStore.Create` | internal/controller/transaction_store.go:88-127 | Succeeds exactly when the name is free and both writes succeed; object, version and transaction ID are new; a failed second write leaves the record without a phase; the store is left as by the two steps of `Signer` |
| `Persistence.TransactionStore.UpdateStatus` | internal/controller/transaction_store.go:148-150 | Stores the new status exactly when the held version is current, and otherwise changes only the object in memory |
| `Persistence.TransactionStore.RecordPending` | internal/controller/transaction_store.go:178-194 | Enters Polling, keeps an earlier nonce or signer when the new one is empty, and stores only at the current version |
| `Persistence.TransactionStore.RecordConfirming` | internal/controller/transaction_store.go:132-152 | Enters Confirming with chain and id, overwrites the nonce even with the empty one, and stores only at the current version, as the step of `Signer` does |
| `Persistence.TransactionStore.RecordIssued` | internal/controller/transaction_store.go:156-166 | Enters Issued with the chain, and stores only at the current version, as the step of `Signer` does |
| `Persistence.TransactionStore.Remove` | internal/controller/transaction_store.go:198-213 | Removes only the instance that was read, as the step of `Signer` does; every object with another UID survives, and a conflict is not an error |
| `Persistence.TransactionStore.ContinuePolling` | internal/controller/signer.go:593-600 | Counts an enrollment poll, never the first wait, and leaves the store that the step of `Signer` computes |
| `Persistence.TransactionStore.ContinueConfirming` | internal/controller/signer.go:455-461 | Counts a confirmation poll, never the answer to certConf, and leaves the store that the step of `Signer` computes |
| `Persistence.CreatedIsNew` | internal/controller/transaction_store.go:88-127 | Creating keeps the store valid, and what is created shares no UID, version or transaction ID with a stored object |
| `Persistence.RunsAreValid` | internal/controller/transaction_store.go:62-64 | In every run the store is valid, and no object a reconcile holds has changed its spec, which is what these operations rely on |
| `Protocol.VerifyResponseIff` | internal/protocol/client.go:498-579 | A response is accepted exactly when it is authentic, and the reported signer is one that protects it |
| `Protocol.ReportedSignerUsage` | internal/protocol/client.go:557-561 | Whatever path building does and whoever signed before, a reported response signer satisfies the usage rule |
| `Protocol.ProtectionIff` | internal/protocol/client.go:517-556 | The protection check succeeds exactly when the shared secret, a chained signer or the transaction's earlier signer protects the response as policy allows; no signer is reported exactly for the shared secret, and the earlier signer, when it signed, whenever the library itself did not verify the response |
| `Protocol.FindTrustedSigner` | internal/protocol/client.go:630-653 | The loop finds the first candidate that chains and made the signature |
| `Protocol.FirstTrustedSignerIff` | internal/protocol/client.go:630-653 | A signer is found exactly when some candidate chains and made the signature |
| `Protocol.StatusKinds` | internal/protocol/client.go:828-847 | A status is retried exactly for a system failure without a permanent bit, waits exactly when waiting, and the bit that names a failure explains its kind |
| `Protocol.NamedBit` | internal/protocol/client.go:818-825 | The reported name is a bit the server set, and a permanent one whenever there is one |
| `Protocol.HeaviestBit` | internal/protocol/client.go:801-825 | A failure is named by the heaviest bit the server set, in the documented order, and every named bit but the two system failures is permanent |
| `Protocol.ParseResponseCertificates` | internal/protocol/client.go:740-758 | The loop with its seen set computes the specification of deduplicated parsing |
| `Protocol.ParseOnceMeans` | internal/protocol/client.go:740-758 | Parsing fails exactly when a field does not parse, and yields every certificate exactly once |
| `Protocol.ParseCandidates` | internal/protocol/client.go:634-643 | Candidates that do not parse are skipped, the others kept in order |
| `Protocol.ExtractMeans` | internal/protocol/client.go:668-737 | An extracted certificate is the single successful answer of the expected body, under an allowed id |
| `Protocol.ExtractedIff` | internal/protocol/client.go:668-737 | A certificate is extracted exactly when the response hands one over, every certificate in it parses and a KUP omits caPubs where required |
| `Protocol.OfferedIff` | internal/protocol/client.go:252-254 | A path may use exactly the certificates the response carries and the issuer is configured with |
| `Protocol.FinishMeans` | internal/protocol/client.go:221-273 | Each outcome in terms of the message: what waits, what is delivered, what is implicitly confirmed, and which nonce is remembered |
| `Protocol.AcceptableIff` | internal/protocol/client.go:246-263 | The chain check together with policy, key and validity checks decides acceptability, and the chain is ordered |
| `Protocol.RefusalAlgebra` | internal/protocol/client.go:201-273 | Once a certificate is extracted the outcome is exactly one of completed, awaiting certConf or refused; it is accepted exactly when acceptable; a refusal names the first thing wrong, is Permanent or Security and rejects at the server exactly when certConf is still expected |
| `Protocol.PanicsIff` | internal/protocol/client.go:668-676 | An enrollment answer hits a missing certificate exactly when an error body reports success |
| `Failures.AnswersPanicIff` | internal/protocol/client.go:668-676 | In every run an enrollment answer hits a missing certificate exactly when it is an error message that reports success |
| `Examples.SuccessInErrorMessagePanics` | internal/protocol/client.go:668-676 | A run, in a world with a sound verifier, in which an authentic answer does so |
| `Protocol.WrongIdIsRefused` | internal/protocol/client.go:668-785 | The single answer of an enrollment fails as a security error exactly when its id is not allowed, whatever its status and certificate say, and then nothing is confirmed or rejected at the server |
| `Protocol.SecondsToDuration` | internal/protocol/client.go:293-300 | The duration is the 64-bit value congruent to the seconds in nanoseconds |
| `Certificates.UsageRefusedIff` | internal/protocol/certificate.go:29-44 | The usage rule refuses exactly an ML-DSA key whose key usage is empty or permits encryption or key agreement |
| `Certificates.SelectChain` | internal/protocol/certificate.go:59-80 | The nested loop returns the first path whose usages are all legal |
| `Certificates.FirstUsableIff` | internal/protocol/certificate.go:59-80 | A path is found exactly when a usable one exists, and it is the first |
| `Certificates.VerifyChainIff` | internal/protocol/certificate.go:59-80 | A certificate is trusted exactly when some issuer path to an anchor satisfies the ML-DSA usage rule |
| `Certificates.OrderChain` | internal/protocol/client.go:873-880 | The loop cuts the verified path at the first self-signed member after the leaf |
| `Certificates.TrimmedChain` | internal/protocol/client.go:861-881 | The chain is linked and leaf-first, has nothing self-signed after the leaf, and drops at most a self-signed anchor |
| `Certificates.ReadRecordedChain` | internal/controller/signer.go:504-527 | The loop accepts exactly a non-empty stored chain with legal usages that certifies the CSR key |
| `Certificates.TrustedRecordedChainIff` | internal/controller/signer.go:495-527 | A stored chain is trusted exactly when its usages are legal, it certifies the CSR key and a usable path anchors its leaf now; what is returned is ordered |
| `Certificates.RecordedChainAcceptedAgain` | internal/controller/signer.go:495-527 | A chain accepted and recorded is accepted again on resume with the same anchors, CSR and time, with the same leaf |
| `Paths.SearchIsSound` | internal/protocol/certificate.go:59-66 | A verifier that lists exactly the issuer paths exists |
| `Configuration.RuntimeConfigurationDigest` | internal/controller/configuration.go:239-268 | The loop and sort compute the digest specification for the given iteration order |
| `Configuration.DigestsEqualIff` | internal/controller/configuration.go:239-268 | Whatever the iteration orders, digests are equal exactly when issuer and fingerprint maps are |
| `Configuration.DigestIff` | internal/controller/configuration.go:239-268 | The digest determines issuer and fingerprint map |
| `Configuration.MergeCoversCredentialsIff` | internal/controller/signer.go:347 | The merged map identifies every credential version exactly when no Secret has both roles |
| `Configuration.MergeDetermines` | internal/controller/signer.go:347 | The merged map determines the workload Secrets, and the credentials exactly up to Secrets that are also workload Secrets |
| `Configuration.RotationHiddenIff` | internal/controller/signer.go:347-352 | Rotating a credential Secret leaves the digest unchanged exactly when that Secret is also a workload Secret |
| `Rotation.RotationGoesUnnoticed` | internal/controller/signer.go:222-225 | A run, in a world with a sound verifier, in which one record sends twice under different credentials and trust anchors, because the rotated Secret is also the workload Secret |
| `Configuration.SecretReader.Get` | internal/controller/configuration.go:197-215 | The first read of a name is remembered and later reads return it |
| `Configuration.SecretReader.Load` | internal/controller/configuration.go:197-215 | While the cluster changes between reads, every value handed out is the remembered one, and loading fails exactly when a first read finds nothing |
| `Configuration.FingerprintsCoverValues` | internal/controller/configuration.go:68-74 | The digest covers exactly the versions the request was built from |
| `Configuration.CredentialFingerprintIff` | internal/controller/configuration.go:68-74 | Credential fingerprints are equal exactly for the same object in the same version |
| `Configuration.WorkloadSecretFingerprint` | internal/controller/kur.go:291-300 | The running digest is over the used entries in order |
| `Configuration.WorkloadFingerprintIff` | internal/controller/kur.go:291-300 | Equal exactly for the same Secret with the same used entries, so a metadata-only write changes nothing |
| `Configuration.LimitsUsableIff` | internal/controller/configuration.go:271-285 | When the defaults alone give usable limits, and that validated specs always do |
| `Configuration.LimitsAreConfigured` | internal/controller/configuration.go:271-285 | Every limit is the configured one where usable and otherwise the documented default: ten minutes, one second, five minutes, 60 polls |
| `Configuration.ValidatedLimits` | internal/controller/configuration.go:523-532 | A validated block is omitted, and means the defaults, or is used as it is |
| `Configuration.RequeueDelayIs` | internal/controller/signer.go:593-630 | The delay is the permitted one nearest to what the server asked for, or the time left before a nearer deadline |
| `Configuration.RequeueDelayBounds` | internal/controller/signer.go:593-630 | For every requested wait the delay is positive, within the maximum and the time left, and not below the minimum unless the deadline is nearer |
| `Workload.CertificateOwnerReference` | internal/controller/kur.go:313-330 | The loop finds the owner specification |
| `Workload.CertificateOwnerIff` | internal/controller/kur.go:313-330 | The owner is found exactly when one owner controls the request and it names a cert-manager Certificate |
| `Workload.OwnerAuthorizedIff` | internal/controller/kur.go:202-235 | A request is authorized exactly by the Certificate that is its only controlling owner, alive, one revision behind the request and served by this issuer |
| `Workload.CurrentSecretIssuedForCertificate` | internal/controller/kur.go:368-385 | True exactly when the Secret names the Certificate and every controlling owner is that Certificate |
| `Workload.OperationSelected` | internal/controller/kur.go:55-119 | Exactly when each operation is selected, and which operation a renewal falls back to |
| `Workload.IrLoadedIff` | internal/controller/kur.go:125-145 | IR material is loaded exactly when the owner is authorized, for a renewal only as the issuer's fallback, and the staged key named by request and Certificate is the CSR's; it keeps the issuer's protection and is identified by that key |
| `Workload.FallbackIff` | internal/controller/signer.go:301-313 | Sign takes the initial operation instead of KUR exactly when the issuer says so and the Secret is gone, or is this Certificate's and empty or expired; otherwise it keeps the operation, and fails exactly when owner or Secret cannot be read |
| `Workload.FallbackSound` | internal/controller/renewal_fallback.go:64-97 | Once Sign falls back, KUR preparation on the same contents fails then and at every later time |
| `Workload.SameFingerprintsSameProtection` | internal/controller/kur.go:148-196 | Equal KUR fingerprints mean the same certificate protects the messages |
| `Workload.KurPreparedIff` | internal/protocol/kur.go:121-160 | A KUR is prepared exactly when its messages are protected by the certificate being updated, read with its key from the authorized owner's Secret and valid now, the staged key is the CSR's and both name the same identity |
| `Workload.KurCurrentKey` | internal/controller/kur.go:186-195 | The certificate a KUR updates is pinned by the one fingerprint over two entries |
| `Names.ComputeAttributeSet` | internal/protocol/client.go:608-617 | The nested loop and sort compute the attribute list specification |
| `Names.AttributeSetsEqualIff` | internal/protocol/client.go:608-617 | Sorted attribute lists are equal exactly when the attribute multisets are |
| `Names.SenderMatchesRecipientIff` | internal/protocol/client.go:594-605 | A sender is accepted exactly when it has the recipient's attributes, in any order and grouping, or no recipient is configured |
| `Names.ComputeGeneralNameSet` | internal/protocol/kur.go:163-180 | The loop and sort compute the general name list specification |
| `Names.SameKurIdentityIff` | internal/protocol/kur.go:142-160 | Certificate and CSR agree exactly when subject attributes and alternative names are equal as multisets |
| `DistinguishedName.SplitDn` | internal/protocol/parse.go:67-96 | The scanner splits at exactly the unquoted commas and reports empty names, empty components and an open escape |
| `DistinguishedName.SplitIsUnique` | internal/protocol/parse.go:67-96 | A name splits in only one way |
| `DistinguishedName.UnescapeDnValue` | internal/protocol/parse.go:99-118 | The scanner removes one level of escapes or reports an open one |
| `DistinguishedName.UnescapeEscape` | internal/protocol/parse.go:99-118 | Unescaping undoes escaping |
| `DistinguishedName.PartAnswerIff` | internal/protocol/parse.go:46-62 | Every part has exactly one answer and the parser gives it: a component is a supported key, in any case and spacing, before the first equals sign, with the non-empty unescaped value after it; otherwise the first thing that is wrong |
| `DistinguishedName.ParseDistinguishedName` | internal/protocol/parse.go:41-64 | The loop parses every component in order, stops at the first error and builds the name |
| `DistinguishedName.ComponentRoundTrip` | internal/protocol/parse.go:46-62 | A rendered component is parsed back |
| `DistinguishedName.LooseRoundTrip` | internal/protocol/parse.go:46-62 | A component is parsed back from any spelling: the key in any case, spaces around key and value |
| `DistinguishedName.TrimIff` | internal/protocol/parse.go:46-62 | Trimming takes off exactly the spaces around a text |
| `DistinguishedName.ToUpperIff` | internal/protocol/parse.go:46-62 | Keys are upper-cased character by character |
| `DistinguishedName.SupportedAttribute` | internal/protocol/parse.go:121-149 | The supported attribute types and their object identifiers |
| `DistinguishedName.NameRoundTrip` | internal/protocol/parse.go:41-118 | Every non-empty list of tidy components, rendered with quoted backslashes and commas, is parsed back exactly |
| `DistinguishedName.ParsedRendering` | internal/protocol/parse.go:41-64 | Parsing such a rendering gives the name built from exactly its components |
| `DistinguishedName.ParsedNameKeepsComponentsIff` | internal/protocol/parse.go:121-149 | The parsed name keeps every component exactly when neither CN nor SERIALNUMBER is repeated |
| `DistinguishedName.RepeatedCommonNameIsLost` | internal/protocol/parse.go:121-149 | A recipient with two common names refuses the sender that has both |
| `DistinguishedName.ConfiguredRecipientAccepts` | internal/protocol/client.go:594-605 | A configured recipient accepts exactly the senders with its components |

## Left out

- HTTP transport, TLS, redirects and media types: a send is lost, fails retryably or permanently, or delivers any response.
- Cryptography and ASN.1: whether the library verified a response, and whose key signed it, are facts about the response.
- Building protected messages beyond transaction ID, nonces, version, body and certReqId; a failure to build one is a fault that ends the record.
- Endpoint, protocol and policy validation of an issuer spec, apart from the transaction limits; a spec that fails it ends the reconcile before anything is stored.
- An unparsable retained response signer: a stored signer is a parsed certificate in this model.
- The requested notAfter of an IR or KUR, timestamps, owner references and the protocol version field of a record.
- Logging, metrics, events, conditions and issuer-lib's retry handling: a reconcile may run again or not at all.
- Serial.NoMessageAfterIssued: serialization is proved sufficient; an overlapping run that happens to stay silent is not characterised.
- Theorems.OneConfiguration: assumes that no Secret is both credential and workload Secret; `ConfigurationIff` is the statement without that assumption.
- Signer.Step: Sign is a step function on values, so that a crash can fall between any two actions; the in-memory transaction object that Sign and the store share, and what a failed write leaves in it, appear only in `Persistence.TransactionStore`.
- Sorting is specified as a sorted permutation; the library's algorithm is not modelled.

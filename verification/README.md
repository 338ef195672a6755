# A verified model of the service broker

The broker keeps a table of instances and drives a Kubernetes cluster. Every request is a
handler that reads and changes both stores in several steps, and every database statement,
API call, template and service hook can fail. This project models that code in Dafny and
proves what it does in each of those cases, over whole runs and over interleavings.

## How the model is built

* `ApiServer`, `Manifest`: the cluster as a map from (resource, namespace, name) to an object
  with a uid, a resourceVersion and a body (Kubernetes API Conventions, section "Concurrency
  Control and Consistency"), and a YAML stream as a sequence of documents, each undecodable,
  undiscoverable or an object. A create fails if the key is in use, an update if the version
  is not the current one.
* `KubeCli`: the three apply loops as methods over the cluster, each specified by a function
  of the stream, the start and the failure pattern. A failure pattern is an arbitrary function
  of the position, so "for all patterns" means every choice of failing calls.
  `ApplyProperties`, `UpsertProperties` and `DeleteProperties` prove what the passes do.
* `UpdateRaces`: any number of create-or-update loops at once, with other clients, one API call
  per step; `UpdateCalls` the same for the loops of an interleaved Update.
* `Pods`, `Dao`, `Broker`: the readiness check, the instance table and the handlers. Each
  handler is a method whose new stores and reply are those of a specification function
  (Open Service Broker API, sections "Provisioning", "Deprovisioning", "Polling Last
  Operation"). `Answers` says what each handler answers in every situation, in terms of the
  request and the service's hooks, `Lifecycle` what single calls and pairs of calls do, `Runs` what
  every sequence of calls keeps, `ProvisionRetries` when Provision succeeds and what its failures
  leave, `Leftovers` what that means for every later call.
* `ProvisionRaces`: Provisions, Deprovisions and Updates that run at the same time, one statement
  or API call per step, with other clients of the cluster. `Turns` says what each
  step does, `Winners` who wins when several Provisions of one id run at once, `Undisturbed` that a
  call alone does what its handler does, `Overlaps` that no object is orphaned while no call is
  overtaken, `Separation` which calls cannot be overtaken, `Orphans` both without the trace,
  `Overtaking` what happens when one is.
* `Catalog`, `Plans`, `Paths`, `Assets`: the catalog indexes, the plan generator, and the
  embedded assets with their recursive restore.

Rendering, JSON encoding, YAML decoding and service hooks are arbitrary functions; a hook also
gets the moment of the request, so it may answer differently each time. Enumeration of Go maps
is an arbitrary choice.

## Where the code is followed against its apparent intent

* `pkg/broker/logic.go:296` takes the first result of `CheckInstance` for "creating", while
  `pkg/kubernetes/instance.go:83` returns it when all containers are ready. Both are kept;
  `Answers.LastOperationAnswers` states the consequence: "succeed" is answered only while some
  container is still being created.
* `pkg/broker/logic.go:115` calls a five-argument function with four arguments and an id that is
  empty there. Provision uses the call of `pkg/broker/logic.go:401-403` with the request's id.
* `pkg/broker/logic.go:348` refuses exactly the instances that exist. Update is modelled as
  written; `UpdateChangesNoRow` states the consequence. For an id without a row it renders with
  an empty instance id.
* `pkg/kubernetes/kubernetes.go:143` does not record created objects, so a create-or-update pass
  over a fresh cluster returns an empty map (`UpsertPassResidue`, `CreateAndUpsertAgree`).
* `pkg/broker/bussiness.go:76-82` discards the services map it builds, and
  `pkg/broker/bussiness.go:126` keys templates by their whole path up to the first dot
  (`TemplateFoundIff`, `TemplatesInDirectoriesAreNotFound`). The handlers are proved for
  arbitrary maps.
* `pkg/util/util.go:35` expects a list typed as strings, which JSON does not give back
  (`QuotaLostInJson`).
* `pkg/dao/instance.go:24-36` lists 11 columns for 12 values; rows are modelled by field name.
* `pkg/kubernetes/instance.go:71` dereferences the waiting state of a container that may have
  none; the model keeps that as a crash of the check.

Some claims that one would expect hold only under a condition.

* Provision followed by Deprovision restores the cluster if and only if no key of the manifest was
  in use and the finished manifest still names every Service
  (`ProvisionDeprovisionIsIdentityIff`).
* A Provision that could have succeeded but failed can be retried, for hooks that answer as before,
  if and only if it left no object at all (`RetrySucceedsIff`). Every residue that the proofs allow
  is reached (`ServiceResidueIsReached`, `WorkloadResidueIsReached`).
* A leftover, Service or workload, that a request always creates stands in the way of that request
  until a Deprovision, of whatever id, works on a row whose manifest names it, or another client
  removes it (`LeftoverWedges`, `WhoRemoved`). Repeats of the request with Deprovisions of its id
  and Updates never get there, because no row is ever stored (`RepeatsChangeNothing`,
  `FailureWedges`); they help if and only if the request could succeed at once at some moment
  (`RepeatsSucceedIff`), and so do all calls that spare the objects of the start
  (`SucceedsEventuallyIff`). A different request of the same id can free it, and does so in an
  example (`FreedByAnother`, `AnotherRequestFrees`).
* In interleaved runs no object of a successful Provision is orphaned unless a call writes the table
  on the strength of a select that an insert of the same id has overtaken
  (`NoOrphanUnlessOvertaken`). That takes two Deprovisions of one id, or an Update and a Provision
  of one id (`OvertakenHasRival`); without those no interleaving has orphans (`NoOrphanWhenApart`).
  Both kinds of overtaken calls do harm, without any failure: a Deprovision removes the new row
  (`OvertakenDeprovisionOrphans`), an Update gives it another manifest
  (`OvertakenUpdateRewrites`, `OvertakenUpdateOrphans`).
* Restoring a single file by name finds its directory made if the last separator of the name is a
  slash; if it is a backslash, which `pkg/asset/asset.go:238` does not take for a separator, the
  restore succeeds only if the directory exists already (`ParentReadyIff`).
* Lookups do not depend on the order in which the assets are enumerated if and only if catalog files
  of one service id answer alike and templates of one name have one text (`OrderIrrelevantIff`).
* A plan name belongs to one triple only if and only if no part of the triple has a dash
  (`PlanNameUniqueIff`); a parser recovers the triple if and only if cpu and memory have none
  (`PlanNameRoundTripIff`).

## Model

| member | source | states |
|---|---|---|
| KubeCli.KubeCli.Create | pkg/kubernetes/kubernetes.go:84-89 | A create either fails without effect or stores a new incarnation under a key that was free. |
| KubeCli.KubeCli.Update | pkg/kubernetes/kubernetes.go:146-151 | An update takes effect only on the very version it names, and keeps the object's identity. |
| KubeCli.KubeCli.Delete | pkg/kubernetes/kubernetes.go:183-187 | A delete removes the key, reports that it was absent, or fails without effect. |
| KubeCli.KubeCli.CreateFromReader | pkg/kubernetes/kubernetes.go:54-94 | The create loop reaches the cluster and the result of the create pass, for every failure pattern. |
| KubeCli.KubeCli.CreateOrUpdateFromReader | pkg/kubernetes/kubernetes.go:96-156 | The create-or-update loop reaches the cluster and the result of the upsert pass. |
| KubeCli.KubeCli.DeleteFromReader | pkg/kubernetes/kubernetes.go:158-190 | The delete loop reaches the cluster and the result of the delete pass, tolerating absent objects. |
| KubeCli.KubeCli.CreateService | pkg/kubernetes/instance.go:12-26 | Creates the documents of kind Service, and only those. |
| KubeCli.KubeCli.CreateInstance | pkg/kubernetes/instance.go:28-42 | Creates the documents that are neither Service nor Ingress. |
| KubeCli.KubeCli.DeleteInstance | pkg/kubernetes/instance.go:44-50 | Deletes the documents of every kind, Ingress included. |
| KubeCli.KubeCli.UpdateService | pkg/kubernetes/instance.go:86-100 | Creates or updates the documents of kind Service. |
| KubeCli.KubeCli.UpdateInstance | pkg/kubernetes/instance.go:102-116 | Creates or updates the documents that are neither Service, Ingress nor Router. |
| Manifest.KeysMember | pkg/kubernetes/kubernetes.go:75-81 | A key belongs to a filtered manifest exactly when some kept document carries it. |
| Manifest.FiltersKeep | pkg/kubernetes/instance.go:12-116 | Which kinds each pass keeps: Service; neither Service nor Ingress; neither Service, Ingress nor Router; all of them for a deletion. |
| Manifest.LastKeptBody | pkg/kubernetes/kubernetes.go:128-153 | A kept document that no later kept one shares its key with gives the key its last body. |
| Manifest.FreshMeaning | pkg/kubernetes/kubernetes.go:83-89 | What it takes for every create of a list to be possible: pairwise distinct keys, none in use. |
| Manifest.CreateAllEffect | pkg/kubernetes/kubernetes.go:83-89 | Creating a list adds exactly its keys, each as a new incarnation, and leaves every other object as it was. |
| Manifest.CreateAllContents | pkg/kubernetes/kubernetes.go:83-89 | Creating a list leaves each of its keys with its last body. |
| Manifest.MetNothingIff | pkg/kubernetes/kubernetes.go:128-153 | An upsert finds no object at all exactly when the list is fresh. |
| ApplyProperties.CreateFromResidue | pkg/kubernetes/kubernetes.go:57-93 | Resumed after any clean prefix, the create loop stops after a longer clean prefix. |
| ApplyProperties.CreatePassResidue | pkg/kubernetes/kubernetes.go:54-94 | Whatever fails, the start plus the kept objects of a prefix is left; success iff the prefix is everything; the result is the last created name per namespace; the pass stops at the first failure that concerns it or where the prefix cannot grow, and its error says which. |
| ApplyProperties.CreatePassSuccess | pkg/kubernetes/kubernetes.go:57-93 | Success means that every document resolved, filtered ones included, and exactly the kept ones were created. |
| ApplyProperties.CreateSucceedsIff | pkg/kubernetes/kubernetes.go:54-94 | Success is equivalent to: all documents resolve, the kept keys are distinct and free, discovery answers for every document, filtered ones included, and every create of a kept one goes through. |
| ApplyProperties.SplitStream | pkg/kubernetes/instance.go:12-42 | The Service filter and the workload filter split the non-Ingress keys, and freshness splits with them. |
| ApplyProperties.TwoPassesEqualOne | pkg/kubernetes/instance.go:12-42 | CreateService then CreateInstance over one stream succeeds iff a single non-Ingress pass does, and reaches the same contents, however the kinds are interleaved. |
| ApplyProperties.TwoPassContents | pkg/kubernetes/instance.go:12-42 | The contents agree for every failure pattern under which both ways succeed. |
| UpsertProperties.UpsertFromResidue | pkg/kubernetes/kubernetes.go:99-155 | Resumed after any applied prefix, the create-or-update loop stops after a longer applied prefix. |
| UpsertProperties.UpsertPassResidue | pkg/kubernetes/kubernetes.go:96-156 | Whatever fails, exactly the kept objects of a prefix have their last bodies, nothing else changed, and no object was recreated; the pass stops at the first document whose decoding, discovery, Get or write fails, and its error says which; the result names, per namespace, the last object that was found existing. |
| UpsertProperties.UpsertSucceedsIff | pkg/kubernetes/kubernetes.go:96-156 | Alone, the pass succeeds iff every document is an object that discovery answers for, and the Get and the write of every kept one go through. |
| UpsertProperties.LastBodiesMeaning | pkg/kubernetes/kubernetes.go:128-153 | The content a key ends with is the body of its last document. |
| UpsertProperties.AttemptsKeepTarget | pkg/kubernetes/kubernetes.go:96-156 | No sequence of attempts, failed or not, changes what a completed pass would reach. |
| UpsertProperties.RetriesConverge | pkg/kubernetes/kubernetes.go:96-156 | After any number of attempts with any failures the next success reaches the contents of one uninterrupted run; other keys still hold the same objects. |
| UpsertProperties.RerunChangesNothing | pkg/kubernetes/kubernetes.go:96-156 | A successful rerun changes no content. |
| UpsertProperties.CreateAndUpsertAgree | pkg/kubernetes/kubernetes.go:54-156 | On a fresh cluster both ways leave the same contents; create reports the last names, create-or-update an empty map. |
| UpsertProperties.LastNamesMeaning | pkg/kubernetes/kubernetes.go:91 | The name reported for a namespace is that of its last object. |
| UpsertProperties.LastNamesComplete | pkg/kubernetes/kubernetes.go:91 | Every namespace in which an object was created is reported. |
| DeleteProperties.DeleteFromResidue | pkg/kubernetes/kubernetes.go:160-189 | Resumed after any deleted prefix, the delete loop stops after a longer deleted prefix. |
| DeleteProperties.DeletePassResidue | pkg/kubernetes/kubernetes.go:158-190 | Whatever fails, exactly the keys of a prefix are gone; the pass stops at the first document that is no object or whose discovery or delete fails, and its error says which. |
| DeleteProperties.DeleteSucceedsIff | pkg/kubernetes/kubernetes.go:158-190 | The delete pass succeeds iff every document is an object, discovery answers for it and its delete goes through, whether or not the object is there. |
| DeleteProperties.DeletePassSuccess | pkg/kubernetes/kubernetes.go:158-190 | Success leaves exactly the objects outside the manifest. |
| DeleteProperties.DecodabilityCarriesOver | pkg/kubernetes/kubernetes.go:57-81 | A stream that was once created under any filter is never refused at decoding or discovery when it is deleted, if discovery answers. |
| UpdateRaces.NeverBack | pkg/kubernetes/kubernetes.go:128-151 | A stored object stays as it is or is outdated, and what is outdated never comes back under its resourceVersion. |
| UpdateRaces.WriteAfterFound | pkg/kubernetes/kubernetes.go:146-151 | The write after a Get that found an object goes through iff that object is still there and the call does not fail; otherwise Conflict, NotFound or the failure, and no change. |
| UpdateRaces.NoLostUpdate | pkg/kubernetes/kubernetes.go:128-151 | In every interleaving with any other clients: after a Get that found an object, the loop's next turn goes on iff the call does not fail and the key held exactly that object in every state in between; it then replaces exactly that object, and otherwise stops with Conflict or NotFound and changes nothing. |
| UpdateRaces.NoOverwrite | pkg/kubernetes/kubernetes.go:135-144 | After a Get that found nothing, the next turn goes on iff the call does not fail and there is nothing under the key at that moment. |
| UpdateCalls.UpdateLosesNothing | pkg/broker/logic.go:439-464 | The same for the loops of an Update beside any other calls of the broker and other clients. |
| UpdateCalls.UpdateOverwritesNothing | pkg/broker/logic.go:439-464 | Nor does such an Update overwrite an object made after its Get found none. |
| UpdateRaces.AloneIsUpsert | pkg/kubernetes/kubernetes.go:99-155 | An undisturbed loop of the interleaved machine does what the upsert pass specifies. |
| Pods.CheckInstance | pkg/kubernetes/instance.go:52-84 | The counting loops compute the quantified meaning of the three results, including the nil dereference. |
| Pods.ExactlyOneResult | pkg/kubernetes/instance.go:63-83 | The check crashes iff some container is neither ready nor waiting; otherwise exactly one result is true, the first iff all are ready, the third iff some waits for another reason than ContainerCreating. |
| Pods.OrderIrrelevant | pkg/kubernetes/instance.go:64-75 | Reordering pods or containers changes no result. |
| Dao.Dao.InsertInstance | pkg/dao/instance.go:43-52 | An insert adds the row, or fails without effect, in particular if the id has a row. |
| Dao.Dao.UpdateInstance | pkg/dao/instance.go:54-62 | An update changes plan, parameters and yaml of an existing row and nothing else. |
| Dao.Dao.DeleteInstance | pkg/dao/instance.go:64-71 | A delete removes the row of the id and reports how many rows went. |
| Dao.Dao.SelectInstance | pkg/dao/instance.go:73-94 | A select returns the row, or the zero row if there is none. |
| Dao.StatementsFit | openshift/db.sql:18-18 | The primary key makes an insert succeed exactly for a free id; delete undoes insert; update changes only plan, parameters and yaml of its row, no other row, and nothing without a row. |
| Dao.StatementsFail | pkg/dao/instance.go:43-94 | A statement that fails says so and changes nothing, a second insert of an id included; a select without a row yields empty fields. |
| Broker.BusinessLogic.InitServiceCatalog | pkg/broker/bussiness.go:84-95 | Fills catalogs, name, plan and template indexes so that they all agree with a search of the assets, or leaves them as they were. |
| Broker.BusinessLogic.Render | pkg/broker/logic.go:70-149 | Lookups and rendering in the order of the code, changing nothing. |
| Broker.BusinessLogic.Provision | pkg/broker/logic.go:52-214 | New stores and reply of a Provision, for every failure. |
| Broker.BusinessLogic.Update | pkg/broker/logic.go:338-489 | New stores and reply of an Update with its guard as written, for every failure. |
| Broker.BusinessLogic.Deprovision | pkg/broker/logic.go:216-274 | New stores and reply of a Deprovision, for every failure. |
| Broker.BusinessLogic.LastOperation | pkg/broker/logic.go:276-336 | The reply of a LastOperation, for every failure. |
| Answers.PrepareIff | pkg/broker/logic.go:70-149 | What rendering comes to, and exactly when: service, plan and template indexed, "NAMESPACE" and "INSTANCE_NAME" given, and no refusal by the template, the service's own two hooks or the encoder. |
| Answers.ProvisionRefuses | pkg/broker/logic.go:53-149 | 503 if the select fails, 409 for a used or empty id, 400 exactly if the request does not render, each without any change. |
| Answers.ProvisionAnswers | pkg/broker/logic.go:151-213 | A request that renders is answered 500 if a pass fails or a hook refuses, 503 if only the insert fails, and otherwise with the dashboard hook's address for the Services just created. |
| Answers.DeprovisionAnswers | pkg/broker/logic.go:216-274 | Answer and stores of a Deprovision in every situation: failed select, no row, unregistered service, refusing before-hook, failed deletion, refusing after-hook, failed row deletion. |
| Answers.UpdateRefuses | pkg/broker/logic.go:338-437 | 503, 409, 400 and the crash without a plan, each without any change; rendering is for an empty instance id. |
| Answers.UpdateAnswers | pkg/broker/logic.go:439-488 | An Update that renders is answered 500 if a pass fails or the special hook refuses, 503 if only the row update fails. |
| Answers.UpdateApplied | pkg/broker/logic.go:439-464 | A successful Update applied manifests rendered without an instance id and made of objects only, the special hook being told only the Services that existed. |
| Answers.UpdateLeavesAlone | pkg/kubernetes/instance.go:86-116 | A key that only Service, Ingress and Router documents of the finished manifest carry, and no Service of the rendered one, is left as it was, present or absent. |
| Answers.UpdateAppliesDocument | pkg/kubernetes/instance.go:102-116 | Every document of another kind is applied, the last body of its key winning. |
| Answers.LastOperationAnswers | pkg/broker/logic.go:276-336 | The answer in every situation: a stuck container means "failed" and all ready "processing" whatever the hook says; else the service's own hook decides, processing before failing. |
| Lifecycle.CommitResidue | pkg/broker/logic.go:151-207 | Every failure from the first create on leaves the table alone and a prefix of the Services, or all Services and a prefix of the workloads. |
| Lifecycle.ProvisionResidue | pkg/broker/logic.go:52-214 | 400 and 409 change nothing; every failing exit leaves exactly such a residue and no row; success stores the row under an id that had none. |
| Lifecycle.ProvisionedObjects | pkg/broker/logic.go:151-207 | A successful Provision adds exactly its Service and workload keys, none of which existed, and touches no other object. |
| Lifecycle.StoredRowDescribesRequest | pkg/broker/logic.go:187-198 | The stored row carries the request's ids, namespace, name and parameters, and an indexed service and plan. |
| Lifecycle.StoredManifestIsRendered | pkg/broker/logic.go:115-167 | The stored manifest is the template rendered for this id, put through the parameter, plan and special hooks in that order, the last one told the last Service per namespace. |
| Lifecycle.HandlersAgreeOnExistence | pkg/broker/logic.go:62-68 | With the database up, Provision and Update conflict exactly when Deprovision and LastOperation do not answer Gone, except for the empty id. |
| Lifecycle.DeprovisionAttempt | pkg/broker/logic.go:234-268 | Success removes exactly the row and the manifest's keys; failure keeps the row and removes at most such keys; a refusing before-hook removes nothing, a refusing after-hook comes when all objects are gone but keeps the row. |
| Lifecycle.DeprovisionSucceedsIff | pkg/broker/logic.go:234-268 | Once nothing fails, Deprovision succeeds iff the stored manifest is made of objects and both hooks agree, whether or not the objects are still there. |
| Lifecycle.DeprovisionRetriesConverge | pkg/broker/logic.go:216-274 | Over any attempts the row survives every failure, the keys only shrink, other keys never change, and the first success leaves no key and no row. |
| Lifecycle.RetryAfterRowDeletionFailed | pkg/broker/logic.go:261-268 | After only the row deletion failed, the next attempt needs no object and only removes the row. |
| Lifecycle.ProvisionDeprovisionObjects | pkg/broker/logic.go:151-268 | What a successful Provision and Deprovision leave: the table of the start, and the provisioned cluster without the finished manifest's keys. |
| Lifecycle.ProvisionDeprovisionIsIdentityIff | pkg/broker/logic.go:151-268 | They restore the cluster iff no key of the finished manifest, Ingress included, was in use and it still names every Service of the rendered one. |
| Lifecycle.UpdateApplies | pkg/broker/logic.go:439-464 | A successful Update gives the rendered Services and the finished updatable workloads their last bodies, touches nothing else, Ingress and Router included, and tells the special hook only the Services that existed before. |
| Runs.ProvisionEvolves | pkg/broker/logic.go:151-207 | Whatever fails, Provision only adds new incarnations. |
| Runs.DeprovisionEvolves | pkg/broker/logic.go:234-268 | Deprovision only removes objects, and does nothing without a row. |
| Runs.UpdateChangesNoRow | pkg/broker/logic.go:338-489 | Update as written never changes a row and refuses the instances that exist. |
| Runs.NewKeysInManifest | pkg/broker/logic.go:187-198 | Everything a successful Provision creates is named by the manifest it stores. |
| Runs.RunKeepsInv | pkg/broker/logic.go:52-489 | Each step of a run keeps the no-orphan invariant. |
| Runs.NoOrphanAfterCommit | pkg/broker/logic.go:151-268 | In every run with any failures and other clients, every object that a successful Provision created and that still exists has its instance's row, with a deletable manifest that names it. |
| Runs.PreparedIsIndexed | pkg/broker/logic.go:70-86 | What is provisioned has an indexed service and plan. |
| Runs.RunKeepsRowsServed | pkg/broker/logic.go:187-198 | In every run each row names an indexed service and plan and a manifest of objects only. |
| Runs.NothingToDeprovision | pkg/broker/logic.go:226-232 | Without a row Deprovision answers Gone and changes nothing. |
| Runs.EveryRowCanBeDeprovisioned | pkg/broker/logic.go:216-274 | From an empty table, every row of every run is served by the catalogs and can be deprovisioned completely once nothing fails. |
| Runs.ProvisionKeepsObjects | pkg/broker/logic.go:151-207 | Provision never touches an object that exists. |
| Runs.UpdateKeepsObjects | pkg/broker/logic.go:439-464 | Update may rewrite objects but removes and recreates none. |
| ProvisionRetries.ProvisionSucceedsIff | pkg/broker/logic.go:52-214 | Success needs a free id, a request that renders, manifests of objects with distinct free keys and agreeing hooks; without failures that is enough. |
| ProvisionRetries.ServiceResidueIsReached | pkg/broker/logic.go:151-167 | Every proper prefix of the Services is left by some failing Provision of a provisionable request. |
| ProvisionRetries.WorkloadResidueIsReached | pkg/broker/logic.go:159-207 | So are all Services with every prefix of the workloads, up to all of them. |
| ProvisionRetries.RetrySucceedsIff | pkg/broker/logic.go:151-207 | After a failed Provision of a provisionable request, a calm retry succeeds iff the attempt left no object. |
| Leftovers.WhoRemoved | pkg/broker/logic.go:52-489 | An object leaves a run of any calls on any ids only by a Deprovision that works on a row whose manifest names it, or by another client. |
| Leftovers.SucceedsEventuallyIff | pkg/broker/logic.go:52-489 | After some calls of any kind, on any ids, that spare the objects of the start, a request for an id without a row succeeds iff it is provisionable from the start at some moment. |
| Leftovers.LeftoverWedges | pkg/broker/logic.go:151-232 | An existing object that the request always creates stays, and the request cannot succeed, after any calls on any ids unless a Deprovision found a row that names the object or another client removed it. |
| Leftovers.RepeatsChangeNothing | pkg/broker/logic.go:52-274 | Repeats of a wedged request without a row, with Deprovisions of its id and Updates, never succeed, store no row and remove nothing. |
| Leftovers.RepeatsSucceedIff | pkg/broker/logic.go:52-274 | Such repeats ever succeed iff the request is provisionable at once at some moment. |
| Leftovers.FailureWedges | pkg/broker/logic.go:151-232 | From every provisionable request, and for each prefix of its workloads, some failing Provision leaves their objects without a row; then no repeats of that request succeed, nor do other calls help that spare an object it always creates. |
| Leftovers.FreedByAnother | pkg/broker/logic.go:151-268 | Another request of any id, provisioned and deprovisioned, removes every object that its finished manifest names, also those that it never created. |
| Leftovers.AnotherRequestFrees | pkg/broker/logic.go:151-268 | In a concrete broker a failed Provision wedges its request, and another request of the same id frees it. |
| ProvisionRaces.NextTable | pkg/broker/logic.go:200-480 | Only the insert, the row deletion and the row update touch the table, and an insert is answered with success exactly if it took effect. |
| Turns.ServiceTurn | pkg/kubernetes/kubernetes.go:57-93 | One step of the interleaved Service pass: discovery before the kind, then a create under a free key, or 500 without a change. |
| Turns.WorkloadTurn | pkg/kubernetes/kubernetes.go:57-93 | One step of the interleaved workload pass. |
| Turns.SpecialTurn | pkg/broker/logic.go:160-168 | The special hook is told the Services of this very call. |
| Turns.DashboardTurn | pkg/broker/logic.go:178-198 | So is the dashboard hook; the row to be stored carries the finished manifest. |
| Turns.InsertTurn | pkg/broker/logic.go:200-213 | The insert takes effect iff the table answers and the id has no row at that moment. |
| Turns.RequestTurn | pkg/broker/logic.go:53-149 | The first step of a Provision: select, then rendering. |
| Turns.WithdrawalTurn | pkg/broker/logic.go:217-241 | The first step of a Deprovision: it remembers the row if the before-hook agrees. |
| Turns.DeleteTurn | pkg/kubernetes/kubernetes.go:160-189 | One step of the interleaved deletion: the key is gone afterwards, or 500 without a change. |
| Turns.DismissalTurns | pkg/broker/logic.go:252-268 | The after-hook decides about the remembered row; the row of the id is deleted whichever it is by then. |
| Turns.RewriteTurn | pkg/broker/logic.go:466-484 | The row update rewrites whatever row the id has by then. |
| Turns.LoopEndTurn | pkg/broker/logic.go:439-476 | What follows each loop of an interleaved Update. |
| Turns.DeprovisionRemembers | pkg/broker/logic.go:217-268 | From its select on, a Deprovision works on the row that it found then. |
| Winners.WinnerInserted | pkg/broker/logic.go:200-213 | A Provision that answered success put its row, in one step, under an id that had none. |
| Winners.GoneMeansRemoved | pkg/broker/logic.go:261-268 | A row that is gone was removed by a Deprovision that answered success. |
| Winners.AtMostOneWinner | pkg/broker/logic.go:53-213 | In every interleaving of Provisions, Deprovisions and Updates with other clients: of two successes for one id one stored its row first, then a Deprovision removed the id's row, then the other stored its own. |
| Winners.StoredRowIsTheWinners | pkg/broker/logic.go:187-213 | The stored row is the one its last winner inserted, that call answered success, the row has been there ever since, and only Updates changed it, which set at most plan, parameters and yaml, to those of the last of them. |
| ProvisionRaces.RowStays | openshift/db.sql:18-18 | Without a removal an inserted row stays, at most updated, and no other insert of its id succeeds. |
| Undisturbed.AloneIsProvision | pkg/broker/logic.go:52-214 | An undisturbed Provision of the interleaved machine does what the atomic one specifies, for every failure pattern. |
| Undisturbed.AloneIsDeprovision | pkg/broker/logic.go:216-274 | So does an undisturbed Deprovision. |
| Undisturbed.AloneIsUpdate | pkg/broker/logic.go:338-489 | So does an undisturbed Update, whose loops read and write in separate steps. |
| Overlaps.NextEvolves | pkg/broker/logic.go:151-464 | No step of any call brings back an object or a uid. |
| Overlaps.RemovedIsSwept | pkg/broker/logic.go:234-268 | A removal that no insert has overtaken comes when nothing that the winner created is left. |
| Overlaps.RewrittenIsOvertaken | pkg/broker/logic.go:338-480 | A row is only ever rewritten by an Update whose select preceded the row's insert. |
| Overlaps.TracedRunKeepsInv | pkg/broker/logic.go:52-489 | Every step of an interleaving without overtaken calls keeps the no-orphan invariant. |
| Overlaps.NoOrphanUnlessOvertaken | pkg/broker/logic.go:52-489 | In every interleaving without overtaken calls, with other clients in between, every object that a successful Provision created and that still exists has its row, with a deletable manifest that names it. |
| Separation.NextKeepsKind | pkg/broker/logic.go:52-489 | No step changes what a call is about. |
| Separation.OvertakenHasRival | pkg/broker/logic.go:216-489 | An overtaken Deprovision has another Deprovision of its id beside it, an overtaken Update a Provision of its id. |
| Separation.ApartIsNeverOvertaken | pkg/broker/logic.go:52-489 | With one Deprovision per id and no Update of an id that a Provision uses, no interleaving overtakes a call. |
| Separation.NoOrphanWhenApart | pkg/broker/logic.go:52-489 | Under that condition no interleaving orphans an object of a successful Provision. |
| Orphans.OvertakenInTurns | pkg/broker/logic.go:216-489 | A call that the trace has as overtaken selected in one turn, the row was inserted in a later one, and the call removed or changed it in a still later one. |
| Orphans.NoOrphanUnlessOvertaken | pkg/broker/logic.go:52-489 | Read off the states alone: if no call removes or changes a row inserted after its own select, an object that a successful Provision made in some turn and that still exists has the id's row, with a manifest of objects that names it. |
| Orphans.NoOrphanWhenApart | pkg/broker/logic.go:52-489 | The same for calls that are apart, whatever turns they take. |
| Orphans.ProvisionedHasRow | pkg/broker/logic.go:151-268 | The same when each handler runs in one go, for all calls on all ids. |
| Overtaking.OvertakenRemovalOrphans | pkg/broker/logic.go:261-268 | A Deprovision overtaken by a Provision of its id before its row deletion removes the new row and leaves all new objects. |
| Overtaking.OvertakenDeprovisionOrphans | pkg/broker/logic.go:216-274 | From the start, for any stored manifest and without a failure, two Deprovisions and a Provision of one id end with all of the Provision's objects and no row. |
| Overtaking.OvertakenUpdateRewrites | pkg/broker/logic.go:338-489 | An Update that selected before a Provision inserted gives the new row its own plan, parameters and manifest, rendered without an instance id. |
| Overtaking.OvertakenUpdateOrphans | pkg/broker/logic.go:338-489 | What the Provision created and that manifest does not name is then in the cluster, is not named by the row, and stays when the instance is deprovisioned. |
| Catalog.BeforeDotMeaning | pkg/broker/bussiness.go:126 | A template's name is its longest prefix without a dot. |
| Catalog.ContainsMeaning | pkg/broker/bussiness.go:110 | The catalog marker may occur anywhere in the name. |
| Catalog.PlanMap | pkg/broker/bussiness.go:119-122 | The plan map answers as a last-match search of the plan list. |
| Catalog.MarkerMeaning | pkg/broker/bussiness.go:110 | An asset is a catalog file exactly if "_generated.json" occurs in its name. |
| Catalog.AssetContributes | pkg/broker/bussiness.go:104-129 | A name with the marker adds exactly its parsed offering and no template; any other adds exactly its text under its longest prefix without a dot, and no offering. |
| Catalog.RepositoryIndex | pkg/asset/asset.go:172-175 | The index of the two embedded assets: one offering with its plans, and one template under "template/apply/zookeeper". |
| Catalog.InitServiceTemplate | pkg/broker/bussiness.go:97-132 | Fails exactly if some asset is unreadable or some catalog malformed; otherwise every lookup answers as a last-match search, and both indexes have the same service ids. |
| Catalog.AddOffering | pkg/broker/bussiness.go:116-123 | The three assignments for one catalog file keep the agreement with the search. |
| Catalog.FindServiceIn | pkg/broker/bussiness.go:104-117 | The search finds an id iff some catalog file defines it, and finds one that does. |
| Catalog.FindTemplateIn | pkg/broker/bussiness.go:125-127 | The template search yields the text of some template asset for the service, if there is any. |
| Catalog.OrderIrrelevantIff | pkg/asset/asset.go:163-169 | All enumerations of the assets give the same answers iff any two catalog files of one id answer alike and any two templates of one name have one text. |
| Catalog.ConsistentIsEnough | pkg/broker/bussiness.go:104-129 | Under that condition neither order nor repetition matters. |
| Catalog.IndexesAgree | pkg/broker/bussiness.go:134-152 | Hence two indexes built from such assets answer every lookup alike, templates included. |
| Catalog.UniqueIsConsistent | pkg/broker/bussiness.go:104-129 | Unique service ids and template names meet the condition. |
| Catalog.TemplateFoundIff | pkg/broker/bussiness.go:125-127 | A service has a template iff the path of some template asset up to its first dot is its name. |
| Catalog.TemplatesInDirectoriesAreNotFound | pkg/broker/bussiness.go:126-127 | If all templates lie in directories, no service without a slash in its name has one. |
| Plans.GeneratePlans | cmd/template/main.go:109-132 | The three loops list the product in order, with consecutive ids, each plan free, bindable and with the schemas of the config. |
| Plans.GenerateTemplate | cmd/template/main.go:96-138 | One offering per config that carries the config's fields, and no id of an offering or a plan occurs twice in all of them, in whatever order the map is walked. |
| Plans.ProductAt | cmd/template/main.go:111-130 | Where the triple (i, j, k) stands in the product. |
| Plans.QuotaAtPlace | cmd/template/main.go:109-132 | There are cpu·memory·disk quotas, and (i·memory+j)·disk+k holds the triple (i, j, k). |
| Plans.PlanCarriesTriple | pkg/util/util.go:33-46 | The plan at that place gives the triple back through GetQuotaFromPlan, is named p-cpu-memory-disk, is free, bindable and quota-bound, has the config's properties in all three schemas, and is the one found by its id. |
| Plans.QuotaFoundIff | pkg/util/util.go:33-46 | The quota is found iff the bullets are a list of three that is typed as strings; otherwise the error says what is wrong. |
| Plans.QuotaLostInJson | pkg/util/util.go:35-38 | No plan that went through JSON gives up its quota. |
| Plans.PlanNameRoundTripIff | cmd/template/main.go:116 | A parser recovers the triple from the name iff cpu and memory have no dash. |
| Plans.PlanNamesInjective | cmd/template/main.go:111-116 | Under that condition equal names mean equal triples. |
| Plans.PlanNamesCollide | cmd/template/main.go:116 | Moving a dash from one part to the next gives another triple with the same name. |
| Plans.PlanNameUniqueIff | cmd/template/main.go:111-116 | A name belongs to one triple only iff no part of that triple has a dash. |
| Paths.CleanIsNormal | pkg/asset/asset.go:270-273 | filepath.Clean leaves no empty or "." segment, and ".." only in front of a path that is not rooted. |
| Paths.NormalIsClean | pkg/asset/asset.go:270-273 | It leaves such a path as it is. |
| Paths.CleanDrops | pkg/asset/asset.go:270-273 | It drops empty and "." segments, a segment together with a ".." after it, and ".." at the root. |
| Paths.CleanIsIdempotent | pkg/asset/asset.go:270-273 | Its answer is not empty, is rooted exactly if the path was, and is clean itself. |
| Paths.JoinIsClean | pkg/asset/asset.go:262 | filepath.Join gives a clean name, empty only for empty parts. |
| Paths.SplitJoin | pkg/asset/asset.go:193-194 | Splitting undoes joining slash-free segments. |
| Paths.JoinSplit | pkg/asset/asset.go:193-194 | Joining undoes splitting. |
| Paths.JoinAppends | pkg/asset/asset.go:262 | Joining an entry to a name that is in the tree appends one segment, backslashes in the name notwithstanding. |
| Paths.DirPlace | pkg/asset/asset.go:238 | The directory of a name, which knows no backslashes, is placed at a proper prefix of the name's own place, and at its parent iff the last separator is a slash. |
| Paths.EmptySegmentGoesNowhere | pkg/asset/asset.go:254-268 | An empty entry name would make the restore call itself with the same name. |
| Assets.Package.Asset | pkg/asset/asset.go:124-134 | The asset of the canonical name, if it is listed and readable. |
| Assets.Package.AssetDir | pkg/asset/asset.go:190-210 | Succeeds exactly for directories of the tree, and then lists each entry once. |
| Assets.Package.RestoreAsset | pkg/asset/asset.go:229-251 | Makes the directories of the name and writes exactly that asset with its mode and time, succeeding iff the asset is readable, nothing fails and the file's directory then exists; otherwise at most that file and those directories differ. |
| Assets.Package.RestoreAssets | pkg/asset/asset.go:254-268 | Succeeds exactly if the name is a path of the tree, nothing at or below it fails and a single file's directory is there; then exactly the entries at or below it are written with the table's contents, and their directories exist; nothing else ever changes; the recursion ends. |
| Assets.ParentReadyIff | pkg/asset/asset.go:238-242 | The file's directory is there iff the last separator of the name is a slash or the directory existed already. |
| Assets.UnderDirectory | pkg/asset/asset.go:190-226 | At or below a directory means at or below one of its entries. |
| Assets.FileOrNothing | pkg/asset/asset.go:255-259 | For a name that is no directory, tree and table agree on what restoring it means. |

## Left out

- HTTP serving, TLS, flags, token review, signal handling and the command line: plumbing over libraries.
- MySQL itself: connection setup, SQL text, timestamps, column widths and the case-insensitive collation of ids.
- The Kubernetes client, the YAML decoder and the discovery cache. What discovery knows about a document does not change over time, although any single discovery may fail.
- A call that fails at the client but takes effect at the server: failing calls have no effect.
- Defaulting and admission by the API server, and updates that it recognises as changing nothing.
- Template execution, JSON marshalling, gzip and the randomness of generated ids; distinctness of ids is assumed where it is needed.
- Bind and Unbind, whose effect is that of a hook, and the stub service.
- Reading and writing the files of the plan generator.
- The modes of the directories that a restore makes, and absolute target paths.
- Graceful deletion and finalizers, under which an object outlives a successful delete call: a delete removes the object at once.
- Bind, Unbind and LastOperation in the interleaved runs: they write neither store.
- Hooks that write to the cluster or the table themselves.
- Charts, manifests and image files.

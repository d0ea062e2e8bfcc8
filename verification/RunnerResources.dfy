/**
 src/k8s/workflow-runner-spawner.ts: bringing the Pod and the Secret of one attempt
 into being against an API server whose answers are arbitrary. An answer may be an
 error although the write was applied, and admission may change what is stored.
 */
module RunnerResources {
  import opened Basics

  datatype Owner = Owner(apiVersion: string, kind: string, name: string, uid: string, controller: bool,
                         blockOwnerDeletion: bool)

  /** `adorned`: annotations, deletionGracePeriodSeconds, finalizers or generateName
      are present. An absent uid is the empty one. */
  datatype Meta = Meta(name: string, namespace: string, labels: map<string, string>, uid: string, terminating: bool,
                       adorned: bool, owners: Option<seq<Owner>>)

  /** What podBoundary keeps of a Pod's spec, as one value. */
  datatype Boundary = Boundary(spec: string)

  datatype Pod = Pod(apiVersion: string, kind: string, meta: Meta, boundary: Boundary)

  datatype Secret = Secret(apiVersion: string, kind: string, meta: Meta, secretType: string, immutable: Option<bool>,
                           stringData: Option<map<string, string>>, data: map<string, string>)

  datatype Attempt = Attempt(runId: string, attemptId: string)

  datatype ErrorKind = Permanent | Transient

  datatype Result<T> = Ok(value: T) | Err(kind: ErrorKind)

  // ---------------------------------------------------------------------
  // Names and desired objects

  function Lower(s: string): string {
    seq(|s|, i requires 0 <= i < |s| => if 'A' <= s[i] <= 'Z' then s[i] - 'A' + 'a' else s[i])
  }

  function NameOf(a: Attempt): string {
    "workflow-runner-" + Lower(a.attemptId)
  }

  /** Equal, or the upper and lower case of one letter. */
  predicate SameLetter(x: char, y: char) {
    x == y || ('A' <= x <= 'Z' && y == x + 32 as char) || ('A' <= y <= 'Z' && x == y + 32 as char)
  }

  /** Two attempts share their resources' name exactly when their ids differ in case
      at most, which the ids of the database never do. */
  lemma NamesCollideIff(a: Attempt, b: Attempt)
    ensures NameOf(a) == NameOf(b) <==>
      |a.attemptId| == |b.attemptId| && forall k :: 0 <= k < |a.attemptId| ==> SameLetter(a.attemptId[k], b.attemptId[k])
  {
    var p, x, y := "workflow-runner-", a.attemptId, b.attemptId;
    assert NameOf(a)[|p|..] == Lower(x) && NameOf(b)[|p|..] == Lower(y);
    if |x| == |y| {
      forall k | 0 <= k < |x| ensures SameLetter(x[k], y[k]) <==> Lower(x)[k] == Lower(y)[k] {
      }
      assert (forall k :: 0 <= k < |x| ==> SameLetter(x[k], y[k])) <==> Lower(x) == Lower(y);
    }
  }

  /** The name is lower case throughout: lowering the id changes its letters only. */
  lemma NameIs(a: Attempt)
    ensures |NameOf(a)| == 16 + |a.attemptId| && NameOf(a)[..16] == "workflow-runner-"
    ensures forall k :: 0 <= k < |a.attemptId| ==>
      NameOf(a)[16 + k] == (if 'A' <= a.attemptId[k] <= 'Z' then a.attemptId[k] + 32 as char else a.attemptId[k])
  {
  }

  function Labels(a: Attempt): map<string, string> {
    map["app.kubernetes.io/name" := "github-app",
        "app.kubernetes.io/component" := "workflow-runner",
        "github-app/workflow-run-id" := a.runId,
        "github-app/workflow-attempt-id" := a.attemptId]
  }

  function DesiredPod(a: Attempt, namespace: string, boundary: Boundary): Pod {
    Pod("v1", "Pod", Meta(NameOf(a), namespace, Labels(a), "", false, false, None), boundary)
  }

  function DesiredSecret(a: Attempt, namespace: string, capability: string, podUid: string): Secret {
    Secret("v1", "Secret",
           Meta(NameOf(a), namespace, Labels(a), "", false, false,
                Some([Owner("v1", "Pod", NameOf(a), podUid, true, false)])),
           "Opaque", None, None, map["capability" := capability])
  }

  // ---------------------------------------------------------------------
  // Checks

  predicate ExactMeta(m: Meta, a: Attempt, namespace: string) {
    m.name == NameOf(a) && m.namespace == namespace && m.labels == Labels(a)
  }

  predicate PodMatches(p: Pod, desired: Pod, a: Attempt, namespace: string) {
    && p.apiVersion == desired.apiVersion && p.kind == desired.kind
    && ExactMeta(p.meta, a, namespace)
    && !p.meta.adorned && p.meta.owners.None?
    && p.boundary == desired.boundary
  }

  /** Identity without the value of the capability, which a retry may rotate. */
  predicate SecretMatches(s: Secret, desired: Secret, a: Attempt, namespace: string) {
    && s.apiVersion == desired.apiVersion && s.kind == desired.kind
    && ExactMeta(s.meta, a, namespace)
    && !s.meta.adorned && s.meta.owners == desired.meta.owners
    && s.secretType == desired.secretType && s.immutable == desired.immutable
    && s.stringData.None? && s.data.Keys == {"capability"}
  }

  /** `Some` is the error thrown. */
  function ValidateExistingPod(p: Pod, desired: Pod, a: Attempt, namespace: string): Option<ErrorKind> {
    if p.meta.terminating then Some(Transient)
    else if !PodMatches(p, desired, a, namespace) then Some(Permanent)
    else None
  }

  function ValidateSecretIdentity(s: Secret, desired: Secret, a: Attempt, namespace: string): Option<ErrorKind> {
    if s.meta.terminating then Some(Transient)
    else if !SecretMatches(s, desired, a, namespace) then Some(Permanent)
    else None
  }

  /** Client errors are permanent, but for timeouts, conflicts and throttling. */
  function ClassifyResourceError(status: Option<int>): ErrorKind {
    if status.Some? && 400 <= status.value < 500 && status.value !in {408, 409, 429} then Permanent else Transient
  }

  predicate IsHex(c: char) {
    '0' <= c <= '9' || 'a' <= c <= 'f'
  }

  /** `/@sha256:[0-9a-f]{64}$/` */
  predicate IsDigestPinned(image: string) {
    |image| >= 72 && image[|image| - 72..|image| - 64] == "@sha256:" && forall c | c in image[|image| - 64..] :: IsHex(c)
  }

  /** An accepted image ends in a whole sha256 digest. */
  lemma DigestPinnedIff(image: string)
    ensures IsDigestPinned(image) <==>
      exists repository, digest ::
        image == repository + "@sha256:" + digest && |digest| == 64 && forall c <- digest :: c in "0123456789abcdef"
  {
    if IsDigestPinned(image) {
      var n := |image|;
      var repository, digest := image[..n - 72], image[n - 64..];
      assert image == repository + image[n - 72..n - 64] + digest;
      forall c | c in digest ensures c in "0123456789abcdef" {
        HexDigits(c);
      }
    }
    if repository, digest :|
      image == repository + "@sha256:" + digest && |digest| == 64 && forall c <- digest :: c in "0123456789abcdef"
    {
      assert image[|image| - 64..] == digest && image[|image| - 72..|image| - 64] == "@sha256:";
      forall c | c in digest ensures IsHex(c) {
        HexDigits(c);
      }
    }
  }

  lemma HexDigits(c: char)
    ensures IsHex(c) <==> c in "0123456789abcdef"
  {
    var digits := "0123456789abcdef";
    if '0' <= c <= '9' {
      assert digits[c as int - '0' as int] == c;
    } else if 'a' <= c <= 'f' {
      assert digits[10 + c as int - 'a' as int] == c;
    }
  }

  // ---------------------------------------------------------------------
  // The API server

  /** What a write is answered with, and what admission makes of the object sent. */
  datatype WriteAnswer<!T> =
    | Applied(admit: T -> T)
    | AppliedUnheard(admit: T -> T, status: Option<int>)
    | Failed(status: Option<int>)

  datatype ReadAnswer = Served | Unserved(status: Option<int>)

  datatype Reply<T> = Body(value: T) | Status(status: Option<int>)

  /** The calls of one reconcile, in order. */
  datatype Answers = Answers(
    createPod: WriteAnswer<Pod>, readPod: ReadAnswer,
    createSecret: WriteAnswer<Secret>, readSecret: ReadAnswer, replaceSecret: WriteAnswer<Secret>)

  class ApiServer {
    var pods: map<string, Pod>
    var secrets: map<string, Secret>

    constructor (pods: map<string, Pod>, secrets: map<string, Secret>)
      ensures this.pods == pods && this.secrets == secrets
    {
      this.pods, this.secrets := pods, secrets;
    }

    method CreatePod(name: string, body: Pod, answer: WriteAnswer<Pod>) returns (r: Reply<Pod>)
      modifies this`pods
      ensures answer.Failed? ==> r == Status(answer.status) && pods == old(pods)
      ensures !answer.Failed? && name in old(pods) ==> r == Status(Some(409)) && pods == old(pods)
      ensures !answer.Failed? && name !in old(pods) ==>
                && pods == old(pods)[name := answer.admit(body)]
                && r == if answer.Applied? then Body(answer.admit(body)) else Status(answer.status)
    {
      if answer.Failed? {
        return Status(answer.status);
      }
      if name in pods {
        return Status(Some(409));
      }
      pods := pods[name := answer.admit(body)];
      return if answer.Applied? then Body(answer.admit(body)) else Status(answer.status);
    }

    method ReadPod(name: string, answer: ReadAnswer) returns (r: Reply<Pod>)
      ensures r == if answer.Unserved? then Status(answer.status)
                   else if name in pods then Body(pods[name]) else Status(Some(404))
    {
      if answer.Unserved? {
        return Status(answer.status);
      }
      if name in pods {
        return Body(pods[name]);
      }
      return Status(Some(404));
    }

    method CreateSecret(name: string, body: Secret, answer: WriteAnswer<Secret>) returns (r: Reply<Secret>)
      modifies this`secrets
      ensures answer.Failed? ==> r == Status(answer.status) && secrets == old(secrets)
      ensures !answer.Failed? && name in old(secrets) ==> r == Status(Some(409)) && secrets == old(secrets)
      ensures !answer.Failed? && name !in old(secrets) ==>
                && secrets == old(secrets)[name := answer.admit(body)]
                && r == if answer.Applied? then Body(answer.admit(body)) else Status(answer.status)
    {
      if answer.Failed? {
        return Status(answer.status);
      }
      if name in secrets {
        return Status(Some(409));
      }
      secrets := secrets[name := answer.admit(body)];
      return if answer.Applied? then Body(answer.admit(body)) else Status(answer.status);
    }

    method ReadSecret(name: string, answer: ReadAnswer) returns (r: Reply<Secret>)
      ensures r == if answer.Unserved? then Status(answer.status)
                   else if name in secrets then Body(secrets[name]) else Status(Some(404))
    {
      if answer.Unserved? {
        return Status(answer.status);
      }
      if name in secrets {
        return Body(secrets[name]);
      }
      return Status(Some(404));
    }

    method ReplaceSecret(name: string, body: Secret, answer: WriteAnswer<Secret>) returns (r: Reply<Secret>)
      modifies this`secrets
      ensures answer.Failed? ==> r == Status(answer.status) && secrets == old(secrets)
      ensures !answer.Failed? && name !in old(secrets) ==> r == Status(Some(404)) && secrets == old(secrets)
      ensures !answer.Failed? && name in old(secrets) ==>
                && secrets == old(secrets)[name := answer.admit(body)]
                && r == if answer.Applied? then Body(answer.admit(body)) else Status(answer.status)
    {
      if answer.Failed? {
        return Status(answer.status);
      }
      if name !in secrets {
        return Status(Some(404));
      }
      secrets := secrets[name := answer.admit(body)];
      return if answer.Applied? then Body(answer.admit(body)) else Status(answer.status);
    }
  }

  // ---------------------------------------------------------------------
  // Create or adopt

  /** The four labels of the attempt's resources, and no others. */
  function AttemptLabels(a: Attempt): map<string, string> {
    map["app.kubernetes.io/component" := "workflow-runner",
        "app.kubernetes.io/name" := "github-app",
        "github-app/workflow-attempt-id" := a.attemptId,
        "github-app/workflow-run-id" := a.runId]
  }

  /** The attempt's Pod as it must be, field by field, but for its uid and whether it
      is going away. */
  predicate IsRunnerPod(p: Pod, a: Attempt, namespace: string, boundary: Boundary) {
    && p.apiVersion == "v1" && p.kind == "Pod"
    && p.meta.name == NameOf(a) && p.meta.namespace == namespace && p.meta.labels == AttemptLabels(a)
    && p.meta.adorned == false && p.meta.owners == None
    && p.boundary == boundary
  }

  /** The attempt's Secret, likewise: it belongs to the Pod with `podUid`, and holds
      one value, whatever it is. */
  predicate IsRunnerSecret(s: Secret, a: Attempt, namespace: string, podUid: string) {
    && s.apiVersion == "v1" && s.kind == "Secret"
    && s.meta.name == NameOf(a) && s.meta.namespace == namespace && s.meta.labels == AttemptLabels(a)
    && s.meta.adorned == false && s.meta.owners == Some([Owner("v1", "Pod", NameOf(a), podUid, true, false)])
    && s.secretType == "Opaque" && s.immutable == None && s.stringData == None
    && "capability" in s.data && |s.data| == 1
  }

  lemma LabelsAre(a: Attempt)
    ensures Labels(a) == AttemptLabels(a)
  {
  }

  lemma PodMatchesIff(p: Pod, a: Attempt, namespace: string, boundary: Boundary)
    ensures PodMatches(p, DesiredPod(a, namespace, boundary), a, namespace) <==> IsRunnerPod(p, a, namespace, boundary)
  {
  }

  lemma SecretMatchesIff(s: Secret, a: Attempt, namespace: string, capability: string, podUid: string)
    ensures SecretMatches(s, DesiredSecret(a, namespace, capability, podUid), a, namespace) <==>
            IsRunnerSecret(s, a, namespace, podUid)
    ensures IsRunnerSecret(s, a, namespace, podUid) ==>
            (s.data == map["capability" := capability] <==> s.data["capability"] == capability)
  {
    OneKey(s.data);
  }

  lemma OneKey(data: map<string, string>)
    ensures data.Keys == {"capability"} <==> "capability" in data && |data| == 1
  {
    if "capability" in data && |data| == 1 {
      var rest := data.Keys - {"capability"};
      assert |rest| == 0;
      forall k | k in data ensures k == "capability" {
        assert k !in rest;
      }
    }
    if data.Keys == {"capability"} {
      assert |data| == |data.Keys|;
    }
  }

  /** The verdict on a Pod that was created or found. */
  function Judge(p: Pod, desired: Pod, a: Attempt, namespace: string): Result<Pod> {
    var error := ValidateExistingPod(p, desired, a, namespace);
    if error.Some? then Err(error.value) else if p.meta.uid == "" then Err(Transient) else Ok(p)
  }

  /** What the caller of ensurePod gets for a Pod, created or found: it is adopted
      only if no field but the uid differs from what it must be. */
  ghost predicate JudgedPod(r: Result<Pod>, p: Pod, a: Attempt, namespace: string, boundary: Boundary) {
    r == if p.meta.terminating then Err(Transient)
         else if !IsRunnerPod(p, a, namespace, boundary) then Err(Permanent)
         else if p.meta.uid == "" then Err(Transient)
         else Ok(p)
  }

  /** What a rejected call is taken for. */
  ghost predicate JudgedStatus(kind: ErrorKind, status: Option<int>) {
    kind == Permanent <==> status.Some? && 400 <= status.value <= 499 && status.value != 408 && status.value != 409 && status.value != 429
  }

  lemma Judging(p: Pod, a: Attempt, namespace: string, boundary: Boundary)
    ensures JudgedPod(Judge(p, DesiredPod(a, namespace, boundary), a, namespace), p, a, namespace, boundary)
  {
    PodMatchesIff(p, a, namespace, boundary);
  }

  lemma Classifying(status: Option<int>)
    ensures JudgedStatus(ClassifyResourceError(status), status)
  {
  }

  method EnsurePod(api: ApiServer, a: Attempt, namespace: string, boundary: Boundary, answers: Answers)
    returns (r: Result<Pod>)
    modifies api`pods
    ensures r.Ok? ==>
              && NameOf(a) in api.pods && api.pods[NameOf(a)] == r.value
              && IsRunnerPod(r.value, a, namespace, boundary) && !r.value.meta.terminating && r.value.meta.uid != ""
    // only this attempt's name is written, and never over an existing Pod
    ensures NameOf(a) in old(api.pods) || answers.createPod.Failed? ==> api.pods == old(api.pods)
    ensures api.pods - {NameOf(a)} == old(api.pods) - {NameOf(a)}
    // an existing Pod is judged as it is
    ensures NameOf(a) in old(api.pods) && !answers.createPod.Failed? && answers.readPod.Served? ==>
              JudgedPod(r, old(api.pods)[NameOf(a)], a, namespace, boundary)
    // otherwise the whole desired Pod is sent, and what admission made of it is judged
    ensures NameOf(a) !in old(api.pods) && !answers.createPod.Failed? ==>
              var sent := Pod("v1", "Pod", Meta(NameOf(a), namespace, AttemptLabels(a), "", false, false, None), boundary);
              && api.pods == old(api.pods)[NameOf(a) := answers.createPod.admit(sent)]
              && (answers.createPod.Applied? ==> JudgedPod(r, answers.createPod.admit(sent), a, namespace, boundary))
    ensures answers.createPod.Failed? && answers.createPod.status != Some(409) ==>
              r.Err? && JudgedStatus(r.kind, answers.createPod.status)
  {
    var desired := DesiredPod(a, namespace, boundary);
    LabelsAre(a);
    hide Labels, AttemptLabels, NameOf, IsRunnerPod, PodMatches, ClassifyResourceError, JudgedStatus;
    var created := api.CreatePod(NameOf(a), desired, answers.createPod);
    if created.Body? {
      Judging(created.value, a, namespace, boundary);
      return Judge(created.value, desired, a, namespace);
    }
    Classifying(created.status);
    if created.status != Some(409) {
      return Err(ClassifyResourceError(created.status));
    }
    var existing := api.ReadPod(NameOf(a), answers.readPod);
    if existing.Status? {
      return Err(ClassifyResourceError(existing.status));
    }
    Judging(existing.value, a, namespace, boundary);
    return Judge(existing.value, desired, a, namespace);
  }

  /** A stored Secret is accepted only with this attempt's identity and the very
      capability that was sent. */
  function Keep(s: Secret, desired: Secret, a: Attempt, namespace: string): Result<()>
    requires "capability" in desired.data
  {
    var error := ValidateSecretIdentity(s, desired, a, namespace);
    if error.Some? then Err(error.value)
    else if s.data["capability"] != desired.data["capability"] then Err(Permanent)
    else Ok(())
  }

  /** What the caller of ensureSecret gets for a Secret it has written. */
  ghost predicate KeptSecret(r: Result<()>, s: Secret, a: Attempt, namespace: string, capability: string, podUid: string) {
    r == if s.meta.terminating then Err(Transient)
         else if IsRunnerSecret(s, a, namespace, podUid) && s.data["capability"] == capability then Ok(())
         else Err(Permanent)
  }

  lemma Keeping(s: Secret, a: Attempt, namespace: string, capability: string, podUid: string)
    ensures KeptSecret(Keep(s, DesiredSecret(a, namespace, capability, podUid), a, namespace), s, a, namespace, capability, podUid)
  {
    SecretMatchesIff(s, a, namespace, capability, podUid);
  }

  method EnsureSecret(api: ApiServer, a: Attempt, namespace: string, capability: string, podUid: string, answers: Answers)
    returns (r: Result<()>)
    modifies api`secrets
    ensures r.Ok? ==>
              && NameOf(a) in api.secrets
              && var s := api.secrets[NameOf(a)];
                 !s.meta.terminating && IsRunnerSecret(s, a, namespace, podUid) && s.data["capability"] == capability
    ensures api.secrets - {NameOf(a)} == old(api.secrets) - {NameOf(a)}
    // a Secret of another identity is never written, and one that is right is left as it is
    ensures NameOf(a) in old(api.secrets) && api.secrets != old(api.secrets) ==>
              var was := old(api.secrets)[NameOf(a)];
              && !was.meta.terminating && IsRunnerSecret(was, a, namespace, podUid) && was.data["capability"] != capability
              && !answers.replaceSecret.Failed?
              && api.secrets == old(api.secrets)[NameOf(a) := answers.replaceSecret.admit(was.(data := map["capability" := capability]))]
    ensures NameOf(a) in old(api.secrets) && !answers.createSecret.Failed? && answers.readSecret.Served? ==>
              var was := old(api.secrets)[NameOf(a)];
              if was.meta.terminating then r == Err(Transient)
              else if !IsRunnerSecret(was, a, namespace, podUid) then r == Err(Permanent)
              else if was.data["capability"] == capability then r == Ok(())
              else if answers.replaceSecret.Applied? then
                // a right identity with another capability is rotated
                KeptSecret(r, answers.replaceSecret.admit(was.(data := map["capability" := capability])), a, namespace, capability, podUid)
              else r.Err? && JudgedStatus(r.kind, answers.replaceSecret.status)
    ensures NameOf(a) !in old(api.secrets) && !answers.createSecret.Failed? ==>
              var sent := Secret("v1", "Secret",
                                 Meta(NameOf(a), namespace, AttemptLabels(a), "", false, false,
                                      Some([Owner("v1", "Pod", NameOf(a), podUid, true, false)])),
                                 "Opaque", None, None, map["capability" := capability]);
              answers.createSecret.Applied? ==>
                && api.secrets == old(api.secrets)[NameOf(a) := answers.createSecret.admit(sent)]
                && KeptSecret(r, answers.createSecret.admit(sent), a, namespace, capability, podUid)
  {
    var name, desired := NameOf(a), DesiredSecret(a, namespace, capability, podUid);
    LabelsAre(a);
    hide Labels, AttemptLabels, NameOf, SecretMatches, ClassifyResourceError, JudgedStatus;
    var created := api.CreateSecret(name, desired, answers.createSecret);
    if created.Body? {
      Keeping(created.value, a, namespace, capability, podUid);
      return Keep(created.value, desired, a, namespace);
    }
    if created.status != Some(409) {
      return Err(ClassifyResourceError(created.status));
    }
    var existing := api.ReadSecret(name, answers.readSecret);
    if existing.Status? {
      return Err(ClassifyResourceError(existing.status));
    }
    SecretMatchesIff(existing.value, a, namespace, capability, podUid);
    var error := ValidateSecretIdentity(existing.value, desired, a, namespace);
    if error.Some? {
      return Err(error.value);
    }
    if existing.value.data["capability"] == desired.data["capability"] {
      return Ok(());
    }
    var replaced := api.ReplaceSecret(name, existing.value.(data := desired.data, stringData := None), answers.replaceSecret);
    if replaced.Status? {
      Classifying(replaced.status);
      return Err(ClassifyResourceError(replaced.status));
    }
    Keeping(replaced.value, a, namespace, capability, podUid);
    return Keep(replaced.value, desired, a, namespace);
  }

  // ---------------------------------------------------------------------
  // ensureWorkflowRunnerResources

  datatype Input = Input(attempt: Attempt, capability: string, image: string, secureUrl: bool, providerConfigured: bool,
                         namespace: string, boundary: Boundary)

  /** The Pod and the Secret of the attempt are in place: neither is going away,
      both are what they must be, and the Secret carries this capability and is owned
      by that Pod's uid. */
  predicate Reconciled(pods: map<string, Pod>, secrets: map<string, Secret>, i: Input) {
    var name := NameOf(i.attempt);
    && name in pods && IsRunnerPod(pods[name], i.attempt, i.namespace, i.boundary)
    && !pods[name].meta.terminating && pods[name].meta.uid != ""
    && name in secrets && IsRunnerSecret(secrets[name], i.attempt, i.namespace, pods[name].meta.uid)
    && !secrets[name].meta.terminating && secrets[name].data["capability"] == i.capability
  }

  /** The API server answers every call, creates included. */
  predicate Healthy(x: Answers) {
    && !x.createPod.Failed? && x.readPod.Served? && !x.createSecret.Failed? && x.readSecret.Served?
  }

  predicate Configured(i: Input) {
    i.secureUrl && IsDigestPinned(i.image) && i.providerConfigured
  }

  /** Admission that stores what it is sent, the uid apart. */
  ghost predicate Faithful(x: Answers) {
    && x.createPod.Applied? && x.createSecret.Applied?
    && (forall p: Pod :: x.createPod.admit(p).meta.uid != ""
          && x.createPod.admit(p) == p.(meta := p.meta.(uid := x.createPod.admit(p).meta.uid)))
    && (forall s: Secret :: x.createSecret.admit(s) == s.(meta := s.meta.(uid := x.createSecret.admit(s).meta.uid)))
  }

  /** Objects stored as sent are what they must be. */
  lemma FaithfulWrites(x: Answers, a: Attempt, namespace: string, boundary: Boundary, capability: string)
    requires Faithful(x)
    ensures x.createPod.Applied? && x.createSecret.Applied?
    ensures var p := x.createPod.admit(Pod("v1", "Pod", Meta(NameOf(a), namespace, AttemptLabels(a), "", false, false, None), boundary));
      IsRunnerPod(p, a, namespace, boundary) && !p.meta.terminating && p.meta.uid != ""
    ensures forall podUid :: var s := x.createSecret.admit(
              Secret("v1", "Secret",
                     Meta(NameOf(a), namespace, AttemptLabels(a), "", false, false,
                          Some([Owner("v1", "Pod", NameOf(a), podUid, true, false)])),
                     "Opaque", None, None, map["capability" := capability]));
      IsRunnerSecret(s, a, namespace, podUid) && !s.meta.terminating && s.data["capability"] == capability
  {
    hide AttemptLabels, NameOf;
  }

  method EnsureWorkflowRunnerResources(api: ApiServer, i: Input, answers: Answers) returns (r: Result<Pod>)
    modifies api
    ensures r.Ok? ==> Reconciled(api.pods, api.secrets, i) && r.value == api.pods[NameOf(i.attempt)]
    // nothing of another attempt's name is touched
    ensures api.pods - {NameOf(i.attempt)} == old(api.pods) - {NameOf(i.attempt)}
    ensures api.secrets - {NameOf(i.attempt)} == old(api.secrets) - {NameOf(i.attempt)}
    // repeating it changes nothing, and succeeds if the server answers
    ensures old(Reconciled(api.pods, api.secrets, i)) ==> api.pods == old(api.pods) && api.secrets == old(api.secrets)
    ensures old(Reconciled(api.pods, api.secrets, i)) && Healthy(answers) && Configured(i) ==> r.Ok?
    // where neither object exists, a server that stores what it is sent suffices
    ensures NameOf(i.attempt) !in old(api.pods) && NameOf(i.attempt) !in old(api.secrets) ==>
              (Faithful(answers) && Configured(i) ==> r.Ok?)
    ensures !Configured(i) ==> r == Err(Permanent) && api.pods == old(api.pods) && api.secrets == old(api.secrets)
    // a Pod found under the name that differs in any field stops the call before the Secret
    ensures Configured(i) && NameOf(i.attempt) in old(api.pods) && Healthy(answers) ==>
              var was := old(api.pods)[NameOf(i.attempt)];
              !was.meta.terminating && !IsRunnerPod(was, i.attempt, i.namespace, i.boundary) ==>
                r == Err(Permanent) && api.pods == old(api.pods) && api.secrets == old(api.secrets)
  {
    hide IsRunnerPod, IsRunnerSecret, AttemptLabels, NameOf, IsDigestPinned, Faithful, JudgedStatus;
    if Faithful(answers) {
      FaithfulWrites(answers, i.attempt, i.namespace, i.boundary, i.capability);
    }
    if !i.secureUrl || !IsDigestPinned(i.image) || !i.providerConfigured {
      return Err(Permanent);
    }
    var pod := EnsurePod(api, i.attempt, i.namespace, i.boundary, answers);
    if pod.Err? {
      return pod;
    }
    var secret := EnsureSecret(api, i.attempt, i.namespace, i.capability, pod.value.meta.uid, answers);
    if secret.Err? {
      return Err(secret.kind);
    }
    return pod;
  }
}

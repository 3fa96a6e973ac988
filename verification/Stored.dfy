/**
  What the objects of a resource contain after a reconcile, and which of them go when the resource goes: each decided by
  its own field of the resource.
*/
module Stored {
  import opened Convergence
  import opened Events
  import opened Generation
  import opened Inventory
  import opened Json
  import opened LastApplied
  import opened Normalisation
  import opened ObjectNames
  import opened Options
  import opened Plan
  import opened Resource
  import opened Runs
  import opened Settled
  import opened Store
  import opened ThreeWayMerge

  /** The contents built for a part. */
  ghost function Built(e: Event, s: Objects, p: Part): Spec
  {
    var o := OutcomeOf(e, s);
    e.op.build(e.cr, o.spec, EnvList(EnvsOf(o.notes.referred)), p)
  }

  ghost function Before(e: Event, s: Objects, p: Part): Option<Stored> { At(s, KeyOf(e.cr, p)) }

  ghost function Afterwards(e: Event, s: Objects, p: Part): Option<Stored> { At(After(e, s), KeyOf(e.cr, p)) }

  /** The part is asked for by the resource as normalised. */
  ghost predicate IsMadeBy(e: Event, s: Objects, p: Part) { IsAskedFor(OutcomeOf(e, s).spec, e.legacyDeleted, p) }

  lemma MadeIsWritten(e: Event, s: Objects, p: Part)
    requires IsMadeBy(e, s, p) && !KindOf(p).Secret?
    ensures Afterwards(e, s, p) == Effect(PlannedWrite(e.op, e.cr, OutcomeOf(e, s), p), KeyOf(e.cr, p), Before(e, s, p), e.cr, e.random)
  {
    PlannedIffAskedFor(OutcomeOf(e, s).spec, e.legacyDeleted, p);
    PlannedIsWritten(e, s, p);
  }

  /** What is not asked for is left alone, whatever is stored under its key. */
  lemma NotAskedForStays(e: Event, s: Objects, p: Part)
    requires !IsMadeBy(e, s, p) && !p.SccRole? && !KindOf(p).Secret?
    ensures Afterwards(e, s, p) == Before(e, s, p)
  {
    var k := KeyOf(e.cr, p);
    PlannedIffAskedFor(OutcomeOf(e, s).spec, e.legacyDeleted, p);
    if Touched(EventWrites(e, s), k) {
      var i :| 0 <= i < |EventWrites(e, s)| && Touches(EventWrites(e, s)[i], k);
      WrittenIsPlanned(e, s, p, i);
    }
    NotTouched(e, s, k);
  }

  lemma WrittenIsPlanned(e: Event, s: Objects, p: Part, i: nat)
    requires i < |EventWrites(e, s)| && Touches(EventWrites(e, s)[i], KeyOf(e.cr, p)) && !p.SccRole? && !KindOf(p).Secret?
    ensures p in LaterParts(OutcomeOf(e, s).spec, e.legacyDeleted)
  {
    var q := WriteOrigin(e.op, e.cr, OutcomeOf(e, s), e.legacyDeleted, i);
    PartTouches(e.op, e.cr, OutcomeOf(e, s), q.value, KeyOf(e.cr, p));
    KeysDisjoint(e.cr, p, e.cr, q.value);
  }

  // ---- contents ----

  /** The object is there with this content; its annotations and data are those it had before, if it was there. */
  predicate HasContent(o: Option<Stored>, o': Option<Stored>, content: Body)
  {
    && o'.Some? && o'.value.body == content
    && o'.value.annotations == (if o.Some? then o.value.annotations else map[])
    && o'.value.data == if o.Some? then o.value.data else map[]
  }

  /** The roles for the security constraints are those of the operator. */
  lemma RolesStored(e: Event, s: Objects, scc: Scc)
    ensures HasContent(Before(e, s, SccRole(scc)), Afterwards(e, s, SccRole(scc)), e.op.role(e.cr, scc))
  {
    var i := if scc.Nonroot? then 0 else 1;
    WritesByIndex(e.op, e.cr, OutcomeOf(e, s), e.legacyDeleted);
    WrittenAt(e, s, SccRole(scc), i);
  }

  lemma WrittenAt(e: Event, s: Objects, p: Part, i: nat)
    requires i < |EventWrites(e, s)| && EventWrites(e, s)[i] == PlannedWrite(e.op, e.cr, OutcomeOf(e, s), p) && !KindOf(p).Secret?
    ensures Afterwards(e, s, p) == Effect(EventWrites(e, s)[i], KeyOf(e.cr, p), Before(e, s, p), e.cr, e.random)
  {
    var k, ws := KeyOf(e.cr, p), EventWrites(e, s);
    PartTouches(e.op, e.cr, OutcomeOf(e, s), p, k);
    assert Touches(ws[i], k);
    OnlyItsWrite(e, s, p, i);
    SingleWrite(ws, ws[i], k, At(s, k), e.cr, e.random);
    ApplyAllAt(s, ws, k, e.cr, e.random);
  }

  /** The configuration is replaced by what is built. */
  lemma ConfigStored(e: Event, s: Objects)
    requires IsMadeBy(e, s, CorootConfig)
    ensures HasContent(Before(e, s, CorootConfig), Afterwards(e, s, CorootConfig), Built(e, s, CorootConfig))
  {
    ConfigWrite(e.op, e.cr, OutcomeOf(e, s));
    MadeIsWritten(e, s, CorootConfig);
  }

  lemma ConfigWrite(op: Operator, cr: Request, o: Outcome)
    ensures var w := PlannedWrite(op, cr, o, CorootConfig);
            && w.Replaced? && w.key == KeyOf(cr, CorootConfig)
            && w.content == op.build(cr, o.spec, EnvList(EnvsOf(o.notes.referred)), CorootConfig)
    ensures !KindOf(CorootConfig).Secret?
  {}

  /** Accounts and bindings of what is deployed are there, and keep the content they had. */
  lemma AccountsStored(e: Event, s: Objects, p: Part)
    requires (p.Account? || p.AccountBinding?) && IsDeployed(OutcomeOf(e, s).spec, p.component)
    ensures var o := Before(e, s, p); HasContent(o, Afterwards(e, s, p), if o.Some? then o.value.body else Built(e, s, p))
  {
    AccountWrite(e.op, e.cr, OutcomeOf(e, s), p);
    MadeIsWritten(e, s, p);
    EnsuredBody(PlannedWrite(e.op, e.cr, OutcomeOf(e, s), p), Before(e, s, p), e.cr, e.random);
  }

  lemma AccountWrite(op: Operator, cr: Request, o: Outcome, p: Part)
    requires p.Account? || p.AccountBinding?
    ensures var w := PlannedWrite(op, cr, o, p);
            && w.Ensured? && w.key == KeyOf(cr, p) && w.content == op.build(cr, o.spec, EnvList(EnvsOf(o.notes.referred)), p)
    ensures !KindOf(p).Secret?
  {}

  lemma EnsuredBody(w: Write, o: Option<Stored>, owner: Request, random: Random)
    requires w.Ensured?
    ensures HasContent(o, Effect(w, w.key, o, owner, random), if o.Some? then o.value.body else w.content)
  {}

  /** The annotations a part gets from the resource. */
  function AnnotationsFor(spec: CorootSpec, p: Part): map<string, string>
  {
    match p
    case CorootService => spec.serviceAnnotations
    case PublicIngress => if spec.ingress.Some? then spec.ingress.value.annotations else map[]
    case _ => map[]
  }

  /** The part is merged: the ingress if the resource has one, and everything that is always merged. */
  predicate IsMerged(spec: CorootSpec, p: Part) { Merges(p) || (p.PublicIngress? && spec.ingress.Some?) }

  lemma MergedWrite(op: Operator, cr: Request, o: Outcome, p: Part)
    requires IsMerged(o.spec, p)
    ensures var w := PlannedWrite(op, cr, o, p);
            && w.Merged? && w.annotations == AnnotationsFor(o.spec, p) && w.mode == ModeOf(p)
            && w.spec == op.build(cr, o.spec, EnvList(EnvsOf(o.notes.referred)), p)
    ensures !KindOf(p).Secret? && (KindOf(p).Service? <==> ModeOf(p).ForcePorts?)
  {
    MergedContent(op, cr, o, p);
    MergingMode(op, cr, o, p);
    ModeIsOfKind(p);
  }

  lemma ModeIsOfKind(p: Part)
    ensures KindOf(p).Service? <==> ModeOf(p).ForcePorts?
  {}

  lemma MergedContent(op: Operator, cr: Request, o: Outcome, p: Part)
    requires IsMerged(o.spec, p)
    ensures var w := PlannedWrite(op, cr, o, p);
            && w.Merged? && w.annotations == AnnotationsFor(o.spec, p)
            && w.spec == op.build(cr, o.spec, EnvList(EnvsOf(o.notes.referred)), p)
    ensures !KindOf(p).Secret?
  {
    PartIsMerged(cr, o.spec, op.build(cr, o.spec, EnvList(EnvsOf(o.notes.referred)), p), p);
  }

  lemma PartIsMerged(cr: Request, spec: CorootSpec, content: Spec, p: Part)
    requires IsMerged(spec, p)
    ensures var w := PartWrite(cr, spec, content, p); w.Merged? && w.spec == content && w.annotations == AnnotationsFor(spec, p)
    ensures !p.SccRole? && !KindOf(p).Secret?
  {}

  /** The record of what is there, or of what is about to be created, can be read. */
  ghost predicate CanMerge(e: Event, s: Objects, p: Part)
  {
    var o := Before(e, s, p);
    Original(if o.Some? then o.value.annotations else Plainly(AnnotationsFor(OutcomeOf(e, s).spec, p))).Ok?
  }

  lemma MergeStores(w: Write, o: Option<Stored>, owner: Request)
    requires w.Merged? && Original(if o.Some? then o.value.annotations else Plainly(w.annotations)).Ok?
    ensures var o' := AfterMerge(o, owner, w);
            && o'.Some? && Marker(o'.value.annotations) == Record(Plainly(w.annotations), w.spec)
            && (forall k | k in w.annotations && k != MARKER :: k in o'.value.annotations && o'.value.annotations[k] == Plain(w.annotations[k]))
            && (w.mode.ForcePorts? ==> SameMember(o'.value.body, w.spec, PORTS))
            && o'.value.controller == Adopt(if o.Some? then o.value.controller else None, owner, w.retain)
  {
    var live := if o.Some? then o.value else Stored(Plainly(w.annotations), None, w.spec, map[]);
    var original := Original(live.annotations).value;
    AdjustedMember(w.mode, live.body, w.spec, Merge(original, w.spec, live.body), PORTS);
  }

  /**
    Merged objects are there, record exactly what was built and the annotations given in the resource, carry these, and
    services have exactly the ports built.
  */
  lemma MergedStored(e: Event, s: Objects, p: Part)
    requires IsMadeBy(e, s, p) && IsMerged(OutcomeOf(e, s).spec, p) && CanMerge(e, s, p)
    ensures var o, given := Afterwards(e, s, p), AnnotationsFor(e.spec, p);
            && o.Some? && Marker(o.value.annotations) == Record(Plainly(given), Built(e, s, p))
            && (forall k | k in given && k != MARKER :: k in o.value.annotations && o.value.annotations[k] == Plain(given[k]))
            && (KindOf(p).Service? ==> SameMember(o.value.body, Built(e, s, p), PORTS))
  {
    AnnotationsAsGiven(e, s, p);
    MergedWrite(e.op, e.cr, OutcomeOf(e, s), p);
    MadeIsWritten(e, s, p);
    MergedEffect(e, s, p);
  }

  lemma AnnotationsAsGiven(e: Event, s: Objects, p: Part)
    ensures AnnotationsFor(OutcomeOf(e, s).spec, p) == AnnotationsFor(e.spec, p)
  {
    FieldsNormalised(e, s);
  }

  lemma MergedEffect(e: Event, s: Objects, p: Part)
    requires IsMerged(OutcomeOf(e, s).spec, p) && CanMerge(e, s, p)
    ensures var w := PlannedWrite(e.op, e.cr, OutcomeOf(e, s), p);
            var o' := Effect(w, KeyOf(e.cr, p), Before(e, s, p), e.cr, e.random);
            && w.Merged? && o'.Some? && Marker(o'.value.annotations) == Record(Plainly(w.annotations), w.spec)
            && (forall k | k in w.annotations && k != MARKER :: k in o'.value.annotations && o'.value.annotations[k] == Plain(w.annotations[k]))
            && (w.mode.ForcePorts? ==> SameMember(o'.value.body, w.spec, PORTS))
            && o'.value.controller == Adopt(if Before(e, s, p).Some? then Before(e, s, p).value.controller else None, e.cr, w.retain)
  {
    var w := PlannedWrite(e.op, e.cr, OutcomeOf(e, s), p);
    MergedWrite(e.op, e.cr, OutcomeOf(e, s), p);
    PartTouches(e.op, e.cr, OutcomeOf(e, s), p, KeyOf(e.cr, p));
    MergeStores(w, Before(e, s, p), e.cr);
  }

  /** What normalisation leaves of the resource as it is. */
  lemma FieldsNormalised(e: Event, s: Objects)
    ensures var spec := OutcomeOf(e, s).spec;
            && spec.serviceAnnotations == e.spec.serviceAnnotations && spec.ingress == e.spec.ingress
            && spec.agentsOnly == e.spec.agentsOnly && spec.externalPrometheus == e.spec.externalPrometheus
            && spec.externalClickhouse == e.spec.externalClickhouse
            && spec.reclaimPolicy == e.spec.reclaimPolicy && spec.prometheusReclaimPolicy == e.spec.prometheusReclaimPolicy
            && spec.clickhouseReclaimPolicy == e.spec.clickhouseReclaimPolicy && spec.keeperReclaimPolicy == e.spec.keeperReclaimPolicy
  {}

  lemma RemovedIsGone(e: Event, s: Objects, p: Part)
    requires IsMadeBy(e, s, p) && (p.LegacyDeployment? || (p.PublicIngress? && e.spec.ingress.None?))
    ensures Afterwards(e, s, p).None?
  {
    IngressAsGiven(e, s);
    RemovedWrite(e.op, e.cr, OutcomeOf(e, s), p);
    MadeIsWritten(e, s, p);
    RemovedEffect(KeyOf(e.cr, p), Before(e, s, p), e.cr, e.random);
  }

  lemma IngressAsGiven(e: Event, s: Objects)
    ensures OutcomeOf(e, s).spec.ingress == e.spec.ingress
  {
    FieldsNormalised(e, s);
  }

  lemma RemovedEffect(k: Key, o: Option<Stored>, owner: Request, random: Random)
    ensures Effect(Removed(k), k, o, owner, random) == None
  {}

  lemma RemovedWrite(op: Operator, cr: Request, o: Outcome, p: Part)
    requires p.LegacyDeployment? || (p.PublicIngress? && o.spec.ingress.None?)
    ensures PlannedWrite(op, cr, o, p) == Removed(KeyOf(cr, p)) && !KindOf(p).Secret?
  {}

  lemma ServerIsMade(e: Event, s: Objects)
    ensures IsMadeBy(e, s, PublicIngress) <==> !e.spec.agentsOnly
    ensures IsMadeBy(e, s, LegacyDeployment) <==> !e.spec.agentsOnly && !e.legacyDeleted
  {
    FieldsNormalised(e, s);
  }

  lemma IngressIsMerged(e: Event, s: Objects)
    requires !e.spec.agentsOnly && e.spec.ingress.Some? && CanMerge(e, s, PublicIngress)
    ensures Afterwards(e, s, PublicIngress).Some?
  {
    ServerIsMade(e, s);
    FieldsNormalised(e, s);
    MergedStored(e, s, PublicIngress);
  }

  /** Without an ingress in the resource there is none in the store; with one, it is there. */
  lemma IngressFollows(e: Event, s: Objects)
    requires !e.spec.agentsOnly && CanMerge(e, s, PublicIngress)
    ensures Afterwards(e, s, PublicIngress).Some? <==> e.spec.ingress.Some?
  {
    ServerIsMade(e, s);
    if e.spec.ingress.Some? { IngressIsMerged(e, s); } else { RemovedIsGone(e, s, PublicIngress); }
  }

  /** The former Deployment is deleted by the first reconcile with a server, and by no later one. */
  lemma LegacyDeletedOnce(e: Event, s: Objects)
    ensures Afterwards(e, s, LegacyDeployment) == if !e.spec.agentsOnly && !e.legacyDeleted then None else Before(e, s, LegacyDeployment)
  {
    ServerIsMade(e, s);
    if IsMadeBy(e, s, LegacyDeployment) { RemovedIsGone(e, s, LegacyDeployment); } else { NotAskedForStays(e, s, LegacyDeployment); }
  }

  /** From the first reconcile with a server on, the deletion is remembered. */
  lemma LegacyRemembered(op: Operator, cr: Request, spec: CorootSpec, c: Cluster, r: Random)
    ensures Convergence.Reconciled(op, cr, spec, c, r).legacyDeleted <==> c.legacyDeleted || !spec.agentsOnly
  {}

  // ---- what goes with the resource ----

  const KEEP := "Retain"

  /** The object is not owned by the resource: it is shared, or a claim that its own reclaim policy retains. */
  predicate OutlivesResource(spec: CorootSpec, p: Part)
  {
    match p
    case AgentClusterRole | AgentClusterRoleBinding => true
    case CorootClaim(_) => spec.reclaimPolicy == KEEP
    case PrometheusClaim => spec.prometheusReclaimPolicy == KEEP
    case KeeperClaim(_) => spec.keeperReclaimPolicy == KEEP
    case ShardClaim(_, _) => spec.clickhouseReclaimPolicy == KEEP
    case _ => false
  }

  /** Nobody else controls the object. */
  ghost predicate Unclaimed(e: Event, s: Objects, p: Part)
  {
    Before(e, s, p).Some? ==> Before(e, s, p).value.controller.None? || Before(e, s, p).value.controller == Some(e.cr)
  }

  lemma WriteOwns(op: Operator, cr: Request, o: Outcome, p: Part)
    requires !KindOf(p).Secret?
    ensures var w := PlannedWrite(op, cr, o, p); !w.Generated? && (!w.Removed? ==> w.retain == OutlivesResource(o.spec, p))
    ensures PlannedWrite(op, cr, o, p).Removed? <==> p.LegacyDeployment? || (p.PublicIngress? && o.spec.ingress.None?)
    ensures PlannedWrite(op, cr, o, p).Merged? <==> IsMerged(o.spec, p)
  {}

  lemma UnmergedOwns(w: Write, o: Option<Stored>, owner: Request, random: Random)
    requires w.Replaced? || w.Ensured?
    requires o.Some? ==> o.value.controller.None? || o.value.controller == Some(owner)
    ensures var o' := Effect(w, w.key, o, owner, random); o'.Some? && o'.value.controller == if w.retain then None else Some(owner)
  {}

  /** What a reconcile makes is owned by the resource, unless it is to outlive it. */
  lemma OwnershipFollows(e: Event, s: Objects, p: Part)
    requires IsMadeBy(e, s, p) && !KindOf(p).Secret? && !p.LegacyDeployment? && (p.PublicIngress? ==> e.spec.ingress.Some?)
    requires Unclaimed(e, s, p) && (IsMerged(e.spec, p) ==> CanMerge(e, s, p))
    ensures Afterwards(e, s, p).Some?
    ensures Afterwards(e, s, p).value.controller == if OutlivesResource(e.spec, p) then None else Some(e.cr)
  {
    var o := OutcomeOf(e, s);
    var w := PlannedWrite(e.op, e.cr, o, p);
    OutlivesAsGiven(e, s, p);
    MadeIsWritten(e, s, p);
    WriteOwns(e.op, e.cr, o, p);
    PartTouches(e.op, e.cr, o, p, KeyOf(e.cr, p));
    if w.Merged? { MergedEffect(e, s, p); } else { UnmergedOwns(w, Before(e, s, p), e.cr, e.random); }
  }

  lemma OutlivesAsGiven(e: Event, s: Objects, p: Part)
    ensures OutlivesResource(OutcomeOf(e, s).spec, p) == OutlivesResource(e.spec, p)
    ensures IsMerged(OutcomeOf(e, s).spec, p) == IsMerged(e.spec, p)
    ensures OutcomeOf(e, s).spec.ingress == e.spec.ingress
  {
    FieldsNormalised(e, s);
  }

  /** The secret of the ClickHouse password goes with the resource, those of API keys do not. */
  lemma SecretsOwned(e: Event, s: Objects, name: string)
    requires PasswordApart(e.cr, e.spec)
    requires var k := Key(Secret, e.cr.ns, name); k in s ==> s[k].controller.None? || s[k].controller == Some(e.cr)
    ensures var k := Key(Secret, e.cr.ns, name);
            && (Selector(name, PASSWORD_KEY) in PasswordSelectors(e.cr, e.spec) ==> k in After(e, s) && After(e, s)[k].controller == Some(e.cr))
            && ((exists g | g in ApiKeySelectors(e.spec) :: g.name == name) ==> k in After(e, s) && After(e, s)[k].controller.None?)
  {
    var k, o, ws := Key(Secret, e.cr.ns, name), OutcomeOf(e, s), EventWrites(e, s);
    OutcomeApiKeys(e.op, e.cr, e.spec, s, e.random);
    OutcomeKeepsLayout(e.op, e.cr, e.spec, s, e.random);
    if Selector(name, PASSWORD_KEY) in PasswordSelectors(e.cr, e.spec) {
      PasswordPart(o.spec, e.legacyDeleted);
      var j := PasswordWriteAt(e.op, e.cr, o, e.legacyDeleted);
      SecretWritten(e, s, j, k);
    }
    if g :| g in ApiKeySelectors(e.spec) && g.name == name { ApiKeySecretWritten(e, s, g); }
  }

  lemma ApiKeySecretWritten(e: Event, s: Objects, g: Selector)
    requires PasswordApart(e.cr, e.spec) && g in ApiKeySelectors(e.spec)
    requires var o := At(s, Key(Secret, e.cr.ns, g.name)); o.Some? ==> o.value.controller.None? || o.value.controller == Some(e.cr)
    ensures var o := At(After(e, s), Key(Secret, e.cr.ns, g.name)); o.Some? && o.value.controller.None?
  {
    OutcomeApiKeys(e.op, e.cr, e.spec, s, e.random);
    AskedBySpec(e.spec);
    assert g in AsksOf(ApiKeysOf(e.spec));
    WritesByIndex(e.op, e.cr, OutcomeOf(e, s), e.legacyDeleted);
    SecretWritten(e, s, 2, Key(Secret, e.cr.ns, g.name));
  }

  lemma SecretWritten(e: Event, s: Objects, i: nat, k: Key)
    requires PasswordApart(e.cr, e.spec) && i < |EventWrites(e, s)| && EventWrites(e, s)[i].Generated? && Touches(EventWrites(e, s)[i], k)
    requires At(s, k).Some? ==> At(s, k).value.controller.None? || At(s, k).value.controller == Some(e.cr)
    ensures At(After(e, s), k).Some? && At(After(e, s), k).value.controller == if EventWrites(e, s)[i].retain then None else Some(e.cr)
  {
    var ws := EventWrites(e, s);
    PlanStandsAlone(e, s, i);
    SingleWrite(ws, ws[i], k, At(s, k), e.cr, e.random);
    ApplyAllAt(s, ws, k, e.cr, e.random);
    GeneratedOwns(ws[i], k, At(s, k), e.cr, e.random);
  }

  lemma GeneratedOwns(w: Write, k: Key, o: Option<Stored>, owner: Request, random: Random)
    requires w.Generated? && Touches(w, k)
    requires o.Some? ==> o.value.controller.None? || o.value.controller == Some(owner)
    ensures var o' := Effect(w, k, o, owner, random); o'.Some? && o'.value.controller == if w.retain then None else Some(owner)
  {}

  // ---- claims over runs ----

  /** The normalised specification by which the part was last written. */
  function LastWriter(calls: seq<Call>, cr: Request, p: Part): Option<CorootSpec>
  {
    if calls == [] then None
    else if WritesPart(calls[|calls| - 1], cr, p) then Some(calls[|calls| - 1].outcome.spec)
    else LastWriter(calls[..|calls| - 1], cr, p)
  }

  lemma {:induction false} LastWriterDecides(calls: seq<Call>, cr: Request, p: Part)
    requires KindOf(p).PersistentVolumeClaim? && LastWriter(calls, cr, p).Some?
    ensures LastTouch(calls, cr, p) == Some(OutlivesResource(LastWriter(calls, cr, p).value, p))
  {
    if !WritesPart(calls[|calls| - 1], cr, p) { LastWriterDecides(calls[..|calls| - 1], cr, p); }
  }

  /** The claim is there, owned by the resource unless it is kept, and stays behind exactly if it is kept. */
  predicate IsKept(t: Objects, cr: Request, p: Part, kept: bool)
  {
    var k := KeyOf(cr, p);
    && k in t && t[k].controller == (if kept then None else Some(cr)) && (k in Collected(t, cr) <==> kept)
  }

  lemma ClaimFollows(calls: seq<Call>, s: Objects, cr: Request, p: Part)
    requires IsRun(calls) && KindOf(p).PersistentVolumeClaim? && OwnClaim(s, cr, p) && LastWriter(calls, cr, p).Some?
    ensures IsKept(AfterCalls(calls, s), cr, p, OutlivesResource(LastWriter(calls, cr, p).value, p))
  {
    LastWriterDecides(calls, cr, p);
    ClaimsFollowLastPolicy(calls, s, cr, p);
    ClaimsSurviveIffRetained(calls, s, cr, p);
  }

  /** A claim of the Coroot server follows the reclaim policy of its storage. */
  lemma CorootClaimFollows(calls: seq<Call>, s: Objects, cr: Request, i: nat)
    requires IsRun(calls) && OwnClaim(s, cr, CorootClaim(i)) && LastWriter(calls, cr, CorootClaim(i)).Some?
    ensures IsKept(AfterCalls(calls, s), cr, CorootClaim(i), LastWriter(calls, cr, CorootClaim(i)).value.reclaimPolicy == "Retain")
  {
    ClaimFollows(calls, s, cr, CorootClaim(i));
  }

  /** The claim of Prometheus follows the reclaim policy of its own storage. */
  lemma PrometheusClaimFollows(calls: seq<Call>, s: Objects, cr: Request)
    requires IsRun(calls) && OwnClaim(s, cr, PrometheusClaim) && LastWriter(calls, cr, PrometheusClaim).Some?
    ensures IsKept(AfterCalls(calls, s), cr, PrometheusClaim, LastWriter(calls, cr, PrometheusClaim).value.prometheusReclaimPolicy == "Retain")
  {
    ClaimFollows(calls, s, cr, PrometheusClaim);
  }

  /** A claim of a keeper follows the reclaim policy of the keepers' storage. */
  lemma KeeperClaimFollows(calls: seq<Call>, s: Objects, cr: Request, i: nat)
    requires IsRun(calls) && OwnClaim(s, cr, KeeperClaim(i)) && LastWriter(calls, cr, KeeperClaim(i)).Some?
    ensures IsKept(AfterCalls(calls, s), cr, KeeperClaim(i), LastWriter(calls, cr, KeeperClaim(i)).value.keeperReclaimPolicy == "Retain")
  {
    ClaimFollows(calls, s, cr, KeeperClaim(i));
  }

  /** A claim of a shard follows the reclaim policy of the ClickHouse storage. */
  lemma ShardClaimFollows(calls: seq<Call>, s: Objects, cr: Request, i: nat, j: nat)
    requires IsRun(calls) && OwnClaim(s, cr, ShardClaim(i, j)) && LastWriter(calls, cr, ShardClaim(i, j)).Some?
    ensures IsKept(AfterCalls(calls, s), cr, ShardClaim(i, j), LastWriter(calls, cr, ShardClaim(i, j)).value.clickhouseReclaimPolicy == "Retain")
  {
    ClaimFollows(calls, s, cr, ShardClaim(i, j));
  }
}

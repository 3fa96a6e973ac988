/**
  What every run keeps.  A run is any sequence of single API calls: those of reconciles of any resources with any
  changing specifications, of reconciles that find their resource gone, and of any number of reconciles at once, since
  worker and ticker interleave call by call.
*/
module Runs {
  import opened Events
  import opened Json
  import opened LastApplied
  import opened Normalisation
  import opened ObjectNames
  import opened Options
  import opened Plan
  import opened Resource
  import opened Store
  import opened ThreeWayMerge

  /** One call a reconcile makes: for a part, for API keys, or to delete a shared object with the last resource. */
  datatype Call =
    | PartCall(op: Operator, cr: Request, outcome: Outcome, part: Part, random: Random)
    | KeysCall(cr: Request, secrets: map<string, seq<string>>, random: Random)
    | GoneCall(cr: Request, part: Part, random: Random)

  ghost function WriteOf(c: Call): Write
  {
    match c
    case PartCall(op, cr, o, part, _) => PlannedWrite(op, cr, o, part)
    case KeysCall(cr, secrets, _) => Generated(cr.ns, secrets, true)
    case GoneCall(cr, part, _) => Removed(KeyOf(cr, part))
  }

  /** A reconcile that finds its resource gone deletes nothing but the shared objects. */
  predicate IsMade(c: Call) { c.GoneCall? ==> !Namespaced(c.part) }

  ghost predicate IsRun(calls: seq<Call>) { forall c | c in calls :: IsMade(c) }

  ghost function AfterCall(c: Call, s: Objects): Objects { Apply(s, WriteOf(c), c.cr, c.random) }

  ghost function AfterCalls(calls: seq<Call>, s: Objects): Objects
  {
    if calls == [] then s else AfterCall(calls[|calls| - 1], AfterCalls(calls[..|calls| - 1], s))
  }

  // ---- reconciles are runs ----

  ghost function PartCalls(op: Operator, cr: Request, o: Outcome, parts: seq<Part>, random: Random): (calls: seq<Call>)
    ensures |calls| == |parts| && forall i | 0 <= i < |calls| :: calls[i] == PartCall(op, cr, o, parts[i], random)
  {
    seq(|parts|, i requires 0 <= i < |parts| => PartCall(op, cr, o, parts[i], random))
  }

  /** The calls of one undisturbed reconcile. */
  ghost function CallsOf(e: Event, s: Objects): seq<Call>
  {
    var o := OutcomeOf(e, s);
    PartCalls(e.op, e.cr, o, ROLE_PARTS, e.random) + [KeysCall(e.cr, o.notes.apiKeys, e.random)]
    + PartCalls(e.op, e.cr, o, LaterParts(o.spec, e.legacyDeleted), e.random)
  }

  /** All calls are made for one resource, and generate the same values. */
  ghost predicate MadeBy(calls: seq<Call>, cr: Request, random: Random)
  {
    forall i | 0 <= i < |calls| :: IsMade(calls[i]) && calls[i].cr == cr && calls[i].random == random
  }

  ghost function WritesOf(calls: seq<Call>): (ws: seq<Write>)
    ensures |ws| == |calls| && forall i | 0 <= i < |ws| :: ws[i] == WriteOf(calls[i])
  {
    seq(|calls|, i requires 0 <= i < |calls| => WriteOf(calls[i]))
  }

  lemma PartCallsWrite(op: Operator, cr: Request, o: Outcome, parts: seq<Part>, random: Random)
    ensures WritesOf(PartCalls(op, cr, o, parts, random)) == PartWrites(op, cr, o, parts)
    ensures MadeBy(PartCalls(op, cr, o, parts, random), cr, random)
  {
    var calls, ws := PartCalls(op, cr, o, parts, random), PartWrites(op, cr, o, parts);
    forall i | 0 <= i < |calls| ensures WritesOf(calls)[i] == ws[i] {
      assert calls[i] == PartCall(op, cr, o, parts[i], random) && ws[i] == PlannedWrite(op, cr, o, parts[i]);
    }
  }

  lemma CallsAppend(a: seq<Call>, b: seq<Call>, cr: Request, random: Random)
    requires MadeBy(a, cr, random) && MadeBy(b, cr, random)
    ensures WritesOf(a + b) == WritesOf(a) + WritesOf(b) && MadeBy(a + b, cr, random)
  {
    forall i | 0 <= i < |a + b| ensures WritesOf(a + b)[i] == (WritesOf(a) + WritesOf(b))[i] {
      assert WritesOf(a + b)[i] == WriteOf((a + b)[i]);
      if i >= |a| { assert WritesOf(b)[i - |a|] == WriteOf(b[i - |a|]); }
    }
  }

  lemma CallsMakeWrites(e: Event, s: Objects)
    ensures WritesOf(CallsOf(e, s)) == EventWrites(e, s) && MadeBy(CallsOf(e, s), e.cr, e.random)
  {
    var o := OutcomeOf(e, s);
    var roles := PartCalls(e.op, e.cr, o, ROLE_PARTS, e.random);
    var keys := [KeysCall(e.cr, o.notes.apiKeys, e.random)];
    var later := PartCalls(e.op, e.cr, o, LaterParts(o.spec, e.legacyDeleted), e.random);
    PartCallsWrite(e.op, e.cr, o, ROLE_PARTS, e.random);
    PartCallsWrite(e.op, e.cr, o, LaterParts(o.spec, e.legacyDeleted), e.random);
    KeysCallWrites(e.cr, o, e.random);
    CallsAppend(roles, keys, e.cr, e.random);
    CallsAppend(roles + keys, later, e.cr, e.random);
  }

  lemma KeysCallWrites(cr: Request, o: Outcome, random: Random)
    ensures var keys := [KeysCall(cr, o.notes.apiKeys, random)];
            WritesOf(keys) == [ApiKeyWrite(cr, o)] && MadeBy(keys, cr, random)
  {
    assert WritesOf([KeysCall(cr, o.notes.apiKeys, random)])[0] == ApiKeyWrite(cr, o);
  }

  lemma {:induction false} CallsApply(calls: seq<Call>, s: Objects, cr: Request, random: Random)
    requires MadeBy(calls, cr, random)
    ensures AfterCalls(calls, s) == ApplyAll(s, WritesOf(calls), cr, random)
  {
    if calls != [] {
      var n := |calls| - 1;
      CallsApply(calls[..n], s, cr, random);
      assert WritesOf(calls)[..n] == WritesOf(calls[..n]);
    }
  }

  /** One undisturbed reconcile is the run of its calls. */
  lemma ReconcileIsRun(e: Event, s: Objects)
    ensures IsRun(CallsOf(e, s)) && AfterCalls(CallsOf(e, s), s) == After(e, s)
  {
    CallsMakeWrites(e, s);
    CallsApply(CallsOf(e, s), s, e.cr, e.random);
  }

  /** A reconcile that finds the resource gone and nothing else tracked deletes the shared role and its binding. */
  lemma GoneIsRun(cr: Request, s: Objects, random: Random)
    ensures var calls := [GoneCall(cr, AgentClusterRoleBinding, random), GoneCall(cr, AgentClusterRole, random)];
            IsRun(calls) && AfterCalls(calls, s) == s - {KeyOf(cr, AgentClusterRoleBinding), KeyOf(cr, AgentClusterRole)}
  {
    var binding, role := GoneCall(cr, AgentClusterRoleBinding, random), GoneCall(cr, AgentClusterRole, random);
    var t := s - {KeyOf(cr, AgentClusterRoleBinding), KeyOf(cr, AgentClusterRole)};
    assert [binding, role][..1] == [binding] && [binding][..0] == [];
    assert AfterCalls([binding], s) == AfterCall(binding, s);
    forall k ensures At(AfterCall(role, AfterCall(binding, s)), k) == At(t, k) {
      CallAt(binding, s, k);
      CallAt(role, AfterCall(binding, s), k);
    }
    SameEverywhere(AfterCall(role, AfterCall(binding, s)), t);
  }

  // ---- what one call can do ----

  lemma CallAt(c: Call, s: Objects, k: Key)
    ensures At(AfterCall(c, s), k) == Effect(WriteOf(c), k, At(s, k), c.cr, c.random)
  {
    ApplyAt(s, WriteOf(c), k, c.cr, c.random);
  }

  /** The call writes that part of that resource. */
  predicate WritesPart(c: Call, cr: Request, p: Part) { c.PartCall? && c.cr == cr && c.part == p }

  /** A namespaced object that is no secret is written by calls for its own part only. */
  lemma TouchedByOwnCall(c: Call, cr: Request, p: Part)
    requires IsMade(c) && Namespaced(p) && !KindOf(p).Secret?
    ensures Touches(WriteOf(c), KeyOf(cr, p)) <==> WritesPart(c, cr, p)
  {
    match c
    case PartCall(op, owner, o, part, _) =>
      PartTouches(op, owner, o, part, KeyOf(cr, p));
      if KeyOf(cr, p) == KeyOf(owner, part) { KeysDisjoint(cr, p, owner, part); }
    case KeysCall(_, _, _) =>
    case GoneCall(owner, part, _) =>
      if KeyOf(cr, p) == KeyOf(owner, part) { KeysDisjoint(cr, p, owner, part); }
  }

  lemma OnlyTheseRemoved(op: Operator, cr: Request, o: Outcome, p: Part)
    ensures PlannedWrite(op, cr, o, p).Removed? ==> KindOf(p).Ingress? || KindOf(p).Deployment?
  {}

  predicate MayBeRemoved(kind: Kind)
  {
    kind.Ingress? || kind.Deployment? || kind.ClusterRole? || kind.ClusterRoleBinding?
  }

  /** Nothing but ingresses, the former Deployment and the shared objects is ever deleted. */
  lemma NothingElseDeleted(c: Call, s: Objects, k: Key)
    requires IsMade(c) && k in s && !MayBeRemoved(k.kind)
    ensures k in AfterCall(c, s)
  {
    CallAt(c, s, k);
    if Touches(WriteOf(c), k) && WriteOf(c).Removed? {
      match c
      case PartCall(op, cr, o, part, _) =>
        PartTouches(op, cr, o, part, k);
        OnlyTheseRemoved(op, cr, o, part);
      case GoneCall(cr, part, _) => SharedKinds(part);
    }
    assert At(AfterCall(c, s), k).Some?;
  }

  lemma SharedKinds(p: Part)
    requires !Namespaced(p)
    ensures KindOf(p).ClusterRole? || KindOf(p).ClusterRoleBinding?
  {}

  // ---- secrets ----

  lemma PartLeavesSecrets(op: Operator, cr: Request, o: Outcome, p: Part, k: Key)
    requires k.kind.Secret? && Touches(PlannedWrite(op, cr, o, p), k)
    ensures PlannedWrite(op, cr, o, p).Generated?
  {
    SecretWriteGenerates(op, cr, o, p, k);
  }

  lemma SecretsKept(c: Call, s: Objects, k: Key)
    requires IsMade(c) && k.kind.Secret? && k in s
    ensures k in AfterCall(c, s) && s[k].data.Items <= AfterCall(c, s)[k].data.Items
  {
    CallAt(c, s, k);
    if Touches(WriteOf(c), k) {
      match c
      case PartCall(op, cr, o, part, _) => PartLeavesSecrets(op, cr, o, part, k);
      case KeysCall(_, _, _) =>
      case GoneCall(_, part, _) => SharedKinds(part);
    }
    assert At(AfterCall(c, s), k).Some?;
  }

  /** Once a secret key holds a value, no run changes or removes it. */
  lemma {:induction false} SecretsConserved(calls: seq<Call>, s: Objects, k: Key, key: string)
    requires IsRun(calls) && k.kind.Secret? && k in s && key in s[k].data
    ensures var t := AfterCalls(calls, s); k in t && key in t[k].data && t[k].data[key] == s[k].data[key]
  {
    if calls != [] {
      var front := calls[..|calls| - 1];
      SecretsConserved(front, s, k, key);
      var t := AfterCalls(front, s);
      SecretsKept(calls[|calls| - 1], t, k);
      assert (key, t[k].data[key]) in t[k].data.Items;
      assert (key, t[k].data[key]) in AfterCalls(calls, s)[k].data.Items;
    }
  }

  // ---- claims ----

  /** The decision of the last call that wrote the claim. */
  function LastTouch(calls: seq<Call>, cr: Request, p: Part): Option<bool>
    requires KindOf(p).PersistentVolumeClaim?
  {
    if calls == [] then None
    else
      var last := calls[|calls| - 1];
      if WritesPart(last, cr, p) then Some(ClaimPolicy(last.outcome.spec, p) == RETAIN)
      else LastTouch(calls[..|calls| - 1], cr, p)
  }

  /** The policies a reconcile goes by are those of its resource. */
  lemma OutcomeKeepsPolicies(e: Event, s: Objects, p: Part)
    requires KindOf(p).PersistentVolumeClaim?
    ensures ClaimPolicy(OutcomeOf(e, s).spec, p) == ClaimPolicy(e.spec, p)
  {}

  /** The claim is absent, or has a readable record and no foreign controller. */
  predicate OwnClaim(s: Objects, cr: Request, p: Part)
  {
    var k := KeyOf(cr, p);
    k in s ==> Original(s[k].annotations).Ok? && (s[k].controller.None? || s[k].controller == Some(cr))
  }

  lemma ClaimWrite(op: Operator, cr: Request, o: Outcome, p: Part)
    requires KindOf(p).PersistentVolumeClaim?
    ensures var w := PlannedWrite(op, cr, o, p);
            w.Merged? && w.annotations == map[] && w.retain == (ClaimPolicy(o.spec, p) == RETAIN)
  {}

  lemma ClaimWritten(w: Write, o: Option<Stored>, cr: Request)
    requires w.Merged? && w.annotations == map[]
    requires o.Some? ==> Original(o.value.annotations).Ok? && (o.value.controller.None? || o.value.controller == Some(cr))
    ensures var o' := AfterMerge(o, cr, w);
            && o'.Some? && Original(o'.value.annotations).Ok?
            && o'.value.controller == if w.retain then None else Some(cr)
  {}

  lemma ClaimStep(c: Call, s: Objects, cr: Request, p: Part)
    requires IsMade(c) && KindOf(p).PersistentVolumeClaim? && OwnClaim(s, cr, p)
    ensures var k, t := KeyOf(cr, p), AfterCall(c, s);
            && OwnClaim(t, cr, p)
            && if WritesPart(c, cr, p) then k in t && t[k].controller == if ClaimPolicy(c.outcome.spec, p) == RETAIN then None else Some(cr)
               else At(t, k) == At(s, k)
  {
    var k := KeyOf(cr, p);
    CallAt(c, s, k);
    TouchedByOwnCall(c, cr, p);
    if WritesPart(c, cr, p) {
      ClaimWrite(c.op, cr, c.outcome, p);
      ClaimWritten(WriteOf(c), At(s, k), cr);
    }
  }

  /**
    After any run, a claim carries its resource's controller reference exactly when the last reconcile that wrote
    it was not told to retain it; unwritten, it is as it was.
  */
  lemma {:induction false} ClaimsFollowLastPolicy(calls: seq<Call>, s: Objects, cr: Request, p: Part)
    requires IsRun(calls) && KindOf(p).PersistentVolumeClaim? && OwnClaim(s, cr, p)
    ensures var k, t := KeyOf(cr, p), AfterCalls(calls, s);
            && OwnClaim(t, cr, p)
            && match LastTouch(calls, cr, p)
               case None => At(t, k) == At(s, k)
               case Some(retain) => k in t && t[k].controller == if retain then None else Some(cr)
  {
    if calls != [] {
      var front := calls[..|calls| - 1];
      ClaimsFollowLastPolicy(front, s, cr, p);
      ClaimStep(calls[|calls| - 1], AfterCalls(front, s), cr, p);
    }
  }

  /** What is left once the objects controlled by a deleted resource are collected. */
  function Collected(s: Objects, owner: Request): Objects
  {
    map k | k in s && s[k].controller != Some(owner) :: s[k]
  }

  /**
    Collection after the resource is gone removes exactly the claims that were last written without retention; a
    claim that was never written meets the fate it would have met before.
  */
  lemma ClaimsSurviveIffRetained(calls: seq<Call>, s: Objects, cr: Request, p: Part)
    requires IsRun(calls) && KindOf(p).PersistentVolumeClaim? && OwnClaim(s, cr, p)
    ensures KeyOf(cr, p) in Collected(AfterCalls(calls, s), cr)
       <==> if LastTouch(calls, cr, p).Some? then LastTouch(calls, cr, p).value else KeyOf(cr, p) in Collected(s, cr)
  {
    ClaimsFollowLastPolicy(calls, s, cr, p);
    assert KeyOf(cr, p) in s <==> At(s, KeyOf(cr, p)).Some?;
    assert KeyOf(cr, p) in AfterCalls(calls, s) <==> At(AfterCalls(calls, s), KeyOf(cr, p)).Some?;
  }

  lemma {:induction false} ClaimsNeverDeleted(calls: seq<Call>, s: Objects, k: Key)
    requires IsRun(calls) && k.kind.PersistentVolumeClaim? && k in s
    ensures k in AfterCalls(calls, s)
  {
    if calls != [] {
      var front := calls[..|calls| - 1];
      ClaimsNeverDeleted(front, s, k);
      NothingElseDeleted(calls[|calls| - 1], AfterCalls(front, s), k);
    }
  }

  // ---- merged objects ----

  /** How the wrapper of a part adjusts a merged specification. */
  function ModeOf(p: Part): Mode
  {
    if KindOf(p).StatefulSet? then KeepClaimTemplates else if KindOf(p).Service? then ForcePorts else AsMerged
  }

  /** What a merging call wants its object to be. */
  ghost function WishOf(c: Call): Wish
    requires WriteOf(c).Merged?
  {
    Wish(Plainly(WriteOf(c).annotations), WriteOf(c).spec)
  }

  /** What the merging calls for a part want, in their order. */
  ghost function Wishes(calls: seq<Call>, cr: Request, p: Part): seq<Wish>
  {
    if calls == [] then []
    else
      var front, last := calls[..|calls| - 1], calls[|calls| - 1];
      Wishes(front, cr, p) + if WritesPart(last, cr, p) && WriteOf(last).Merged? then [WishOf(last)] else []
  }

  /** Parts that are only ever merged. */
  predicate Merges(p: Part)
  {
    KindOf(p).StatefulSet? || KindOf(p).Service? || KindOf(p).PersistentVolumeClaim? || KindOf(p).DaemonSet?
    || p.AgentDeployment? || p.PrometheusDeployment?
  }

  /** Every call for the part merges; an ingress may also be deleted, when the resource no longer asks for it. */
  ghost predicate OnlyMerged(calls: seq<Call>, cr: Request, p: Part)
  {
    Merges(p) || (Namespaced(p) && !KindOf(p).Secret? && forall c | c in calls && WritesPart(c, cr, p) :: WriteOf(c).Merged?)
  }

  lemma MergedPart(op: Operator, cr: Request, o: Outcome, p: Part)
    requires Merges(p)
    ensures PlannedWrite(op, cr, o, p).Merged?
  {}

  lemma MergesOnly(calls: seq<Call>, cr: Request, p: Part, c: Call)
    requires OnlyMerged(calls, cr, p) && c in calls && WritesPart(c, cr, p)
    ensures WriteOf(c).Merged?
  {
    if Merges(p) { MergedPart(c.op, cr, c.outcome, p); }
  }

  function Targets(wishes: seq<Wish>): (targets: seq<Spec>)
    ensures |targets| == |wishes| && forall i | 0 <= i < |wishes| :: targets[i] == wishes[i].spec
  {
    seq(|wishes|, i requires 0 <= i < |wishes| => wishes[i].spec)
  }

  lemma MergingMode(op: Operator, cr: Request, o: Outcome, p: Part)
    ensures PlannedWrite(op, cr, o, p).Merged? ==> PlannedWrite(op, cr, o, p).mode == ModeOf(p)
  {}

  /** The object that a run of merges starts from: the stored one, or on creation the first wish itself. */
  function Start(o: Option<Stored>, wishes: seq<Wish>): Option<Stored>
  {
    if o.None? && wishes != [] then Some(Stored(wishes[0].annotations, None, wishes[0].spec, map[])) else o
  }

  /** The record of the start can be read; without a wish there may be no object. */
  predicate Readable(start: Option<Stored>) { start.Some? ==> Original(start.value.annotations).Ok? }

  /**
    The object is what a run of merges makes of its start: the annotations are those of the run of wishes, and every
    member the wrapper does not adjust is that of the run of targets.
  */
  ghost predicate FollowsWishes(o: Option<Stored>, start: Stored, wishes: seq<Wish>, mode: Mode)
    requires Original(start.annotations).Ok?
  {
    && o.Some? && o.value.annotations == StampRun(start.annotations, wishes)
    && forall member | !Adjusts(mode, member) ::
         SameMember(o.value.body, MergeRun(Original(start.annotations).value, Targets(wishes), start.body), member)
  }

  /** The record read at each step is the previous target. */
  lemma RecordIsPreviousTarget(annotations: Annotations, wishes: seq<Wish>)
    requires Original(annotations).Ok?
    ensures var read := Original(StampRun(annotations, wishes));
            read == Ok(([Original(annotations).value] + Targets(wishes))[|wishes|])
  {}

  lemma StampRunStep(annotations: Annotations, wishes: seq<Wish>, wish: Wish)
    ensures StampRun(annotations, wishes + [wish]) == Stamped(StampRun(annotations, wishes), wish.annotations, wish.spec)
  {
    assert (wishes + [wish])[..|wishes|] == wishes;
  }

  lemma NextWish(o: Option<Stored>, start: Stored, wishes: seq<Wish>, w: Write, owner: Request)
    requires w.Merged? && Original(start.annotations).Ok? && FollowsWishes(o, start, wishes, w.mode)
    ensures FollowsWishes(AfterMerge(o, owner, w), start, wishes + [Wish(Plainly(w.annotations), w.spec)], w.mode)
  {
    RecordIsPreviousTarget(start.annotations, wishes);
    StampRunStep(start.annotations, wishes, Wish(Plainly(w.annotations), w.spec));
    forall member | !Adjusts(w.mode, member)
      ensures SameMember(AfterMerge(o, owner, w).value.body,
                         MergeRun(Original(start.annotations).value, Targets(wishes + [Wish(Plainly(w.annotations), w.spec)]), start.body),
                         member)
    {
      NextMember(o, start, wishes, w, owner, member);
    }
  }

  lemma NextMember(o: Option<Stored>, start: Stored, wishes: seq<Wish>, w: Write, owner: Request, member: string)
    requires w.Merged? && Original(start.annotations).Ok? && o.Some? && !Adjusts(w.mode, member)
    requires o.value.annotations == StampRun(start.annotations, wishes)
    requires SameMember(o.value.body, MergeRun(Original(start.annotations).value, Targets(wishes), start.body), member)
    ensures AfterMerge(o, owner, w).Some?
    ensures SameMember(AfterMerge(o, owner, w).value.body,
                       MergeRun(Original(start.annotations).value, Targets(wishes + [Wish(Plainly(w.annotations), w.spec)]), start.body),
                       member)
  {
    var original := Original(start.annotations).value;
    RecordIsPreviousTarget(start.annotations, wishes);
    assert Targets(wishes + [Wish(Plainly(w.annotations), w.spec)]) == Targets(wishes) + [w.spec];
    MergeRunStep(original, Targets(wishes), w.spec, start.body);
    MergedMember(w, o, owner, ([original] + Targets(wishes))[|wishes|], MergeRun(original, Targets(wishes), start.body), member);
  }

  /** A merge into an object that agrees with another one on a member agrees with the merge into that one. */
  lemma MergedMember(w: Write, o: Option<Stored>, owner: Request, original: Json, body: Body, member: string)
    requires w.Merged? && o.Some? && Original(o.value.annotations) == Ok(original)
    requires !Adjusts(w.mode, member) && SameMember(o.value.body, body, member)
    ensures AfterMerge(o, owner, w).Some?
    ensures SameMember(AfterMerge(o, owner, w).value.body, Merge(original, w.spec, body), member)
  {
    MergeMemberwise(original, w.spec, o.value.body, body, member);
    AdjustedMember(w.mode, o.value.body, w.spec, Merge(original, w.spec, o.value.body), member);
  }

  /** Creating an object is merging the wish into itself. */
  lemma CreationIsMerge(w: Write, owner: Request)
    requires w.Merged? && Original(Plainly(w.annotations)).Ok?
    ensures AfterMerge(None, owner, w) == AfterMerge(Start(None, [Wish(Plainly(w.annotations), w.spec)]), owner, w)
  {}

  lemma Unwished(o: Stored, mode: Mode)
    requires Original(o.annotations).Ok?
    ensures FollowsWishes(Some(o), o, [], mode)
  {}

  /** The object `o` follows the wishes from `first` on, or still is not there. */
  ghost predicate Following(o: Option<Stored>, first: Option<Stored>, wishes: seq<Wish>, mode: Mode)
  {
    var start := Start(first, wishes);
    if start.Some? then Original(start.value.annotations).Ok? && FollowsWishes(o, start.value, wishes, mode) else o.None?
  }

  /** A merge makes its wish come true, on the object as the merges before left it. */
  lemma WishStep(w: Write, wish: Wish, o: Option<Stored>, first: Option<Stored>, wishes: seq<Wish>, owner: Request)
    requires w.Merged? && wish == Wish(Plainly(w.annotations), w.spec)
    requires Readable(Start(first, wishes + [wish])) && Following(o, first, wishes, w.mode)
    ensures Following(AfterMerge(o, owner, w), first, wishes + [wish], w.mode)
  {
    var start := Start(first, wishes);
    if start.Some? {
      assert Start(first, wishes + [wish]) == start;
      NextWish(o, start.value, wishes, w, owner);
    } else {
      assert wishes == [] && wishes + [wish] == [wish] && [] + [wish] == [wish];
      CreationIsMerge(w, owner);
      var created := Start(None, [wish]).value;
      Unwished(created, w.mode);
      NextWish(Some(created), created, [], w, owner);
    }
  }

  lemma ReadableBefore(first: Option<Stored>, wishes: seq<Wish>, wish: Wish)
    requires Readable(Start(first, wishes + [wish]))
    ensures Readable(Start(first, wishes))
  {
    if wishes != [] { assert (wishes + [wish])[0] == wishes[0]; }
  }

  lemma CallFollows(c: Call, s: Objects, first: Option<Stored>, cr: Request, p: Part, wishes: seq<Wish>)
    requires WritesPart(c, cr, p) && WriteOf(c).Merged?
    requires Readable(Start(first, wishes + [WishOf(c)])) && Following(At(s, KeyOf(cr, p)), first, wishes, ModeOf(p))
    ensures Following(At(AfterCall(c, s), KeyOf(cr, p)), first, wishes + [WishOf(c)], ModeOf(p))
  {
    CallAt(c, s, KeyOf(cr, p));
    PartTouches(c.op, cr, c.outcome, p, KeyOf(cr, p));
    MergingMode(c.op, cr, c.outcome, p);
    WishStep(WriteOf(c), WishOf(c), At(s, KeyOf(cr, p)), first, wishes, cr);
  }

  lemma OtherCallLeaves(c: Call, s: Objects, cr: Request, p: Part)
    requires IsMade(c) && Namespaced(p) && !KindOf(p).Secret? && !WritesPart(c, cr, p)
    ensures At(AfterCall(c, s), KeyOf(cr, p)) == At(s, KeyOf(cr, p))
  {
    TouchedByOwnCall(c, cr, p);
    CallAt(c, s, KeyOf(cr, p));
  }

  lemma LastWish(calls: seq<Call>, cr: Request, p: Part)
    requires calls != [] && OnlyMerged(calls, cr, p)
    ensures var front, last := calls[..|calls| - 1], calls[|calls| - 1];
            && OnlyMerged(front, cr, p) && (WritesPart(last, cr, p) ==> WriteOf(last).Merged?)
            && Wishes(calls, cr, p) == Wishes(front, cr, p) + if WritesPart(last, cr, p) then [WishOf(last)] else []
  {
    if WritesPart(calls[|calls| - 1], cr, p) { MergesOnly(calls, cr, p, calls[|calls| - 1]); }
  }

  /**
    Along any run the object of a part follows the wishes of its own calls, from the stored object or, if there is
    none, from the first wish on; what each merge reads as last applied is the wish before.
  */
  lemma {:induction false} RunFollowsWishes(calls: seq<Call>, s: Objects, cr: Request, p: Part)
    requires IsRun(calls) && OnlyMerged(calls, cr, p)
    requires Readable(Start(At(s, KeyOf(cr, p)), Wishes(calls, cr, p)))
    ensures Following(At(AfterCalls(calls, s), KeyOf(cr, p)), At(s, KeyOf(cr, p)), Wishes(calls, cr, p), ModeOf(p))
  {
    var first := At(s, KeyOf(cr, p));
    if calls == [] {
      NothingWishedYet(first, ModeOf(p));
    } else {
      var front, last := calls[..|calls| - 1], calls[|calls| - 1];
      LastWish(calls, cr, p);
      if WritesPart(last, cr, p) { ReadableBefore(first, Wishes(front, cr, p), WishOf(last)); }
      RunFollowsWishes(front, s, cr, p);
      NextCall(last, AfterCalls(front, s), first, cr, p, Wishes(front, cr, p), Wishes(calls, cr, p));
    }
  }

  lemma NothingWishedYet(first: Option<Stored>, mode: Mode)
    requires Readable(first)
    ensures Following(first, first, [], mode)
  {
    if first.Some? { Unwished(first.value, mode); }
  }

  lemma NextCall(c: Call, s: Objects, first: Option<Stored>, cr: Request, p: Part, wishes: seq<Wish>, all: seq<Wish>)
    requires IsMade(c) && Namespaced(p) && !KindOf(p).Secret? && (WritesPart(c, cr, p) ==> WriteOf(c).Merged?)
    requires all == wishes + if WritesPart(c, cr, p) then [WishOf(c)] else []
    requires Readable(Start(first, all)) && Following(At(s, KeyOf(cr, p)), first, wishes, ModeOf(p))
    ensures Following(At(AfterCall(c, s), KeyOf(cr, p)), first, all, ModeOf(p))
  {
    if WritesPart(c, cr, p) {
      CallFollows(c, s, first, cr, p, wishes);
    } else {
      assert all == wishes;
      OtherCallLeaves(c, s, cr, p);
    }
  }

  /** In a run, an object's annotations are its first ones without any key ever wanted, plus the last wish and its record. */
  lemma AnnotationsInRuns(calls: seq<Call>, s: Objects, cr: Request, p: Part)
    requires IsRun(calls) && OnlyMerged(calls, cr, p)
    requires Wishes(calls, cr, p) != [] && Readable(Start(At(s, KeyOf(cr, p)), Wishes(calls, cr, p)))
    requires forall w | w in Wishes(calls, cr, p) :: MARKER !in w.annotations
    ensures var wishes := Wishes(calls, cr, p);
            var o, first, last := At(AfterCalls(calls, s), KeyOf(cr, p)), Start(At(s, KeyOf(cr, p)), wishes), wishes[|wishes| - 1];
            && o.Some?
            && o.value.annotations == (first.value.annotations - Owned(first.value.annotations) - EverWanted(wishes))
                                      + last.annotations + map[MARKER := Record(last.annotations, last.spec)]
  {
    var wishes := Wishes(calls, cr, p);
    RunFollowsWishes(calls, s, cr, p);
    AnnotationsTracked(Start(At(s, KeyOf(cr, p)), wishes).value.annotations, wishes);
  }

  lemma HasInMember(a: Json, b: Json, path: Path)
    requires path != [] && SameMember(a, b, path[0])
    ensures Has(a, path) <==> Has(b, path)
  {}

  /** The path was recorded at the start, or wanted by one of the wishes. */
  predicate EverWantedPath(start: Option<Stored>, wishes: seq<Wish>, i: nat, path: Path)
    requires Readable(start) && start.Some? && i <= |wishes|
  {
    Has(([Original(start.value.annotations).value] + Targets(wishes))[i], path)
  }

  /** The path was recorded at the start, or wanted by one of the wishes, and the last one does not want it. */
  predicate NoLongerWanted(start: Option<Stored>, wishes: seq<Wish>, i: nat, path: Path)
  {
    && Readable(start) && start.Some? && i <= |wishes| != 0
    && EverWantedPath(start, wishes, i, path) && !Has(wishes[|wishes| - 1].spec, path)
  }

  /**
    In a run, nothing the operator ever wanted of an object outlives its wish for it, but for the member the wrapper
    takes over from the live object or from the target.
  */
  lemma NoLeftoversInRuns(calls: seq<Call>, s: Objects, cr: Request, p: Part, i: nat, path: Path)
    requires IsRun(calls) && OnlyMerged(calls, cr, p)
    requires NoLongerWanted(Start(At(s, KeyOf(cr, p)), Wishes(calls, cr, p)), Wishes(calls, cr, p), i, path)
    requires path != [] && !Adjusts(ModeOf(p), path[0])
    ensures var o := At(AfterCalls(calls, s), KeyOf(cr, p)); o.Some? && !Has(o.value.body, path)
  {
    RunFollowsWishes(calls, s, cr, p);
    FollowingLeavesNothing(At(AfterCalls(calls, s), KeyOf(cr, p)), At(s, KeyOf(cr, p)), Wishes(calls, cr, p), ModeOf(p), i, path);
  }

  lemma FollowingLeavesNothing(o: Option<Stored>, first: Option<Stored>, wishes: seq<Wish>, mode: Mode, i: nat, path: Path)
    requires NoLongerWanted(Start(first, wishes), wishes, i, path) && Following(o, first, wishes, mode)
    requires path != [] && !Adjusts(mode, path[0])
    ensures o.Some? && !Has(o.value.body, path)
  {
    FollowedLeavesNothing(o, Start(first, wishes).value, wishes, mode, i, path);
  }

  lemma FollowedLeavesNothing(o: Option<Stored>, start: Stored, wishes: seq<Wish>, mode: Mode, i: nat, path: Path)
    requires Original(start.annotations).Ok? && FollowsWishes(o, start, wishes, mode) && i <= |wishes| != 0
    requires Has(([Original(start.annotations).value] + Targets(wishes))[i], path) && !Has(wishes[|wishes| - 1].spec, path)
    requires path != [] && !Adjusts(mode, path[0])
    ensures !Has(o.value.body, path)
  {
    var original := Original(start.annotations).value;
    NoLeftovers(original, Targets(wishes), start.body, i, path);
    HasInMember(o.value.body, MergeRun(original, Targets(wishes), start.body), path);
  }

  // ---- claim templates ----

  lemma SetWrite(op: Operator, cr: Request, o: Outcome, p: Part)
    requires KindOf(p).StatefulSet?
    ensures var w := PlannedWrite(op, cr, o, p); w.Merged? && w.annotations == map[] && w.mode == KeepClaimTemplates
  {}

  lemma MergeKeepsTemplates(w: Write, o: Option<Stored>, owner: Request)
    requires w.Merged? && w.annotations == map[] && w.mode == KeepClaimTemplates
    ensures var o' := AfterMerge(o, owner, w);
            o'.Some? && SameMember(o'.value.body, if o.Some? then o.value.body else w.spec, CLAIM_TEMPLATES)
  {
    var live := if o.Some? then o.value else Stored(Plainly(w.annotations), None, w.spec, map[]);
    match Original(live.annotations)
    case Err(_) =>
    case Ok(original) => AdjustedMember(w.mode, live.body, w.spec, Merge(original, w.spec, live.body), CLAIM_TEMPLATES);
  }

  /** The claim templates of a stored StatefulSet outlive every call, whatever is wanted. */
  lemma TemplatesKept(c: Call, s: Objects, k: Key)
    requires IsMade(c) && k.kind.StatefulSet? && k in s
    ensures k in AfterCall(c, s) && SameMember(AfterCall(c, s)[k].body, s[k].body, CLAIM_TEMPLATES)
  {
    NothingElseDeleted(c, s, k);
    CallAt(c, s, k);
    if Touches(WriteOf(c), k) {
      match c
      case PartCall(op, cr, o, part, _) =>
        PartTouches(op, cr, o, part, k);
        SetWrite(op, cr, o, part);
        MergeKeepsTemplates(WriteOf(c), At(s, k), cr);
      case GoneCall(_, part, _) => SharedKinds(part);
    }
  }

  lemma {:induction false} TemplatesImmutable(calls: seq<Call>, s: Objects, k: Key)
    requires IsRun(calls) && k.kind.StatefulSet? && k in s
    ensures k in AfterCalls(calls, s) && SameMember(AfterCalls(calls, s)[k].body, s[k].body, CLAIM_TEMPLATES)
  {
    if calls != [] {
      var front := calls[..|calls| - 1];
      TemplatesImmutable(front, s, k);
      TemplatesKept(calls[|calls| - 1], AfterCalls(front, s), k);
    }
  }

  /** The set is not there before the first wish, and has its claim templates afterwards. */
  predicate AsCreated(o: Option<Stored>, wishes: seq<Wish>)
  {
    if wishes == [] then o.None? else o.Some? && SameMember(o.value.body, wishes[0].spec, CLAIM_TEMPLATES)
  }

  lemma SetCreated(w: Write, o: Option<Stored>, wishes: seq<Wish>, wish: Wish, owner: Request)
    requires w.Merged? && w.annotations == map[] && w.mode == KeepClaimTemplates && wish.spec == w.spec && AsCreated(o, wishes)
    ensures AsCreated(AfterMerge(o, owner, w), wishes + [wish])
  {
    MergeKeepsTemplates(w, o, owner);
    assert (wishes + [wish])[0] == if wishes == [] then wish else wishes[0];
  }

  lemma SetCall(c: Call, s: Objects, cr: Request, p: Part, wishes: seq<Wish>)
    requires KindOf(p).StatefulSet? && WritesPart(c, cr, p) && AsCreated(At(s, KeyOf(cr, p)), wishes)
    ensures WriteOf(c).Merged? && AsCreated(At(AfterCall(c, s), KeyOf(cr, p)), wishes + [WishOf(c)])
  {
    SetWrite(c.op, cr, c.outcome, p);
    CallAt(c, s, KeyOf(cr, p));
    PartTouches(c.op, cr, c.outcome, p, KeyOf(cr, p));
    SetCreated(WriteOf(c), At(s, KeyOf(cr, p)), wishes, WishOf(c), cr);
  }

  /** A StatefulSet that a run creates has and keeps the claim templates of the target it was created from. */
  lemma {:induction false} TemplatesAsCreated(calls: seq<Call>, s: Objects, cr: Request, p: Part)
    requires IsRun(calls) && KindOf(p).StatefulSet? && KeyOf(cr, p) !in s
    ensures AsCreated(At(AfterCalls(calls, s), KeyOf(cr, p)), Wishes(calls, cr, p))
  {
    if calls != [] {
      var front, last := calls[..|calls| - 1], calls[|calls| - 1];
      TemplatesAsCreated(front, s, cr, p);
      if WritesPart(last, cr, p) {
        SetCall(last, AfterCalls(front, s), cr, p, Wishes(front, cr, p));
      } else {
        OtherCallLeaves(last, AfterCalls(front, s), cr, p);
      }
    }
  }

  /** The rest of a set follows the three-way merge, and the whole target is recorded, templates included. */
  lemma SetsFollowMerge(c: Call, s: Objects, p: Part, live: Stored, original: Json, member: string)
    requires c.PartCall? && c.part == p && KindOf(p).StatefulSet?
    requires At(s, KeyOf(c.cr, p)) == Some(live) && Original(live.annotations) == Ok(original) && member != CLAIM_TEMPLATES
    ensures var target := c.op.build(c.cr, c.outcome.spec, EnvList(EnvsOf(c.outcome.notes.referred)), p);
            var o := At(AfterCall(c, s), KeyOf(c.cr, p));
            && o.Some? && Marker(o.value.annotations) == Record(map[], target)
            && SameMember(o.value.body, Merge(original, target, live.body), member)
  {
    var w, k := WriteOf(c), KeyOf(c.cr, p);
    CallAt(c, s, k);
    PartTouches(c.op, c.cr, c.outcome, p, k);
    SetWrite(c.op, c.cr, c.outcome, p);
    SetTarget(c.op, c.cr, c.outcome, p);
    AdjustedMember(w.mode, live.body, w.spec, Merge(original, w.spec, live.body), member);
    assert Plainly(w.annotations) == map[];
  }

  lemma SetTarget(op: Operator, cr: Request, o: Outcome, p: Part)
    requires KindOf(p).StatefulSet?
    ensures PlannedWrite(op, cr, o, p).Merged?
    ensures PlannedWrite(op, cr, o, p).spec == op.build(cr, o.spec, EnvList(EnvsOf(o.notes.referred)), p)
  {}
}

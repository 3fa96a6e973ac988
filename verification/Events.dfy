/**
  Whole reconciles as events that change the store.
*/
module Events {
  import opened Json
  import opened Normalisation
  import opened ObjectNames
  import opened Options
  import opened Plan
  import opened Resource
  import opened Store

  /** One reconcile of an existing resource, with the operator as it then is. */
  datatype Event = Event(op: Operator, cr: Request, spec: CorootSpec, legacyDeleted: bool, random: Random)

  function OutcomeOf(e: Event, s: Objects): Outcome { OutcomeAt(e.op, e.cr, e.spec, s, e.random) }

  ghost function EventWrites(e: Event, s: Objects): seq<Write> { Writes(e.op, e.cr, OutcomeOf(e, s), e.legacyDeleted) }

  ghost function After(e: Event, s: Objects): Objects { ApplyAll(s, EventWrites(e, s), e.cr, e.random) }

  /** A part that is touched is written by its own write. */
  lemma TouchedByPart(e: Event, s: Objects, k: Key) returns (p: Part)
    requires !k.kind.Secret? && Touched(EventWrites(e, s), k)
    ensures k == KeyOf(e.cr, p)
  {
    var ws, o := EventWrites(e, s), OutcomeOf(e, s);
    var i :| 0 <= i < |ws| && Touches(ws[i], k);
    var q := WriteOrigin(e.op, e.cr, o, e.legacyDeleted, i);
    p := q.value;
    PartTouches(e.op, e.cr, o, p, k);
  }

  lemma NotTouched(e: Event, s: Objects, k: Key)
    requires !Touched(EventWrites(e, s), k)
    ensures At(After(e, s), k) == At(s, k)
  {
    ApplyAllAt(s, EventWrites(e, s), k, e.cr, e.random);
    UntouchedStays(EventWrites(e, s), k, At(s, k), e.cr, e.random);
  }

  /** A planned part ends up as its write leaves it. */
  lemma PlannedIsWritten(e: Event, s: Objects, p: Part)
    requires p in LaterParts(OutcomeOf(e, s).spec, e.legacyDeleted) && !KindOf(p).Secret?
    ensures At(After(e, s), KeyOf(e.cr, p))
         == Effect(PlannedWrite(e.op, e.cr, OutcomeOf(e, s), p), KeyOf(e.cr, p), At(s, KeyOf(e.cr, p)), e.cr, e.random)
  {
    var k, o, ws := KeyOf(e.cr, p), OutcomeOf(e, s), EventWrites(e, s);
    var i := PartWriteAt(e.op, e.cr, o, e.legacyDeleted, p);
    PartTouches(e.op, e.cr, o, p, k);
    assert Touches(ws[i], k);
    OnlyItsWrite(e, s, p, i);
    SingleWrite(ws, ws[i], k, At(s, k), e.cr, e.random);
    ApplyAllAt(s, ws, k, e.cr, e.random);
  }

  lemma OnlyItsWrite(e: Event, s: Objects, p: Part, i: nat)
    requires i < |EventWrites(e, s)| && EventWrites(e, s)[i] == PlannedWrite(e.op, e.cr, OutcomeOf(e, s), p) && !KindOf(p).Secret?
    ensures forall j | 0 <= j < |EventWrites(e, s)| && Touches(EventWrites(e, s)[j], KeyOf(e.cr, p)) :: EventWrites(e, s)[j] == EventWrites(e, s)[i]
  {
    var k, ws := KeyOf(e.cr, p), EventWrites(e, s);
    PartTouches(e.op, e.cr, OutcomeOf(e, s), p, k);
    WritesCoherent(e.op, e.cr, OutcomeOf(e, s), e.legacyDeleted);
    assert !ws[i].Generated?;
  }

  // ---- the shared objects ----

  /** What a reconcile makes of the cluster role. */
  ghost function RoleContent(e: Event, s: Objects): Spec
  {
    e.op.build(e.cr, OutcomeOf(e, s).spec, EnvList(EnvsOf(OutcomeOf(e, s).notes.referred)), AgentClusterRole)
  }

  lemma SharedArePlanned(spec: CorootSpec, f: bool)
    ensures AgentClusterRole in LaterParts(spec, f) && AgentClusterRoleBinding in LaterParts(spec, f)
  {
    var parts := AgentParts();
    assert parts[5] == AgentClusterRole && parts[6] == AgentClusterRoleBinding;
    assert LaterParts(spec, f)[5] == parts[5] && LaterParts(spec, f)[6] == parts[6];
  }

  lemma SharedWrites(op: Operator, cr: Request, o: Outcome)
    ensures PlannedWrite(op, cr, o, AgentClusterRole)
         == Replaced(KeyOf(cr, AgentClusterRole), op.build(cr, o.spec, EnvList(EnvsOf(o.notes.referred)), AgentClusterRole), true)
    ensures var w := PlannedWrite(op, cr, o, AgentClusterRoleBinding);
            w.Ensured? && w.key == KeyOf(cr, AgentClusterRoleBinding) && w.retain
  {}

  lemma SharedAreWritten(e: Event, s: Objects, p: Part)
    requires p.AgentClusterRole? || p.AgentClusterRoleBinding?
    ensures At(After(e, s), KeyOf(e.cr, p))
         == Effect(PlannedWrite(e.op, e.cr, OutcomeOf(e, s), p), KeyOf(e.cr, p), At(s, KeyOf(e.cr, p)), e.cr, e.random)
  {
    SharedArePlanned(OutcomeOf(e, s).spec, e.legacyDeleted);
    PlannedIsWritten(e, s, p);
  }

  /** An object whose content is overwritten, and which the resource gives up. */
  function Overwritten(o: Option<Stored>, content: Body, owner: Request): Stored
  {
    var live := if o.Some? then o.value else Stored(map[], None, content, map[]);
    live.(controller := Adopt(live.controller, owner, true), body := content)
  }

  lemma OverwriteEffect(k: Key, content: Body, o: Option<Stored>, owner: Request, random: Random)
    ensures Effect(Replaced(k, content, true), k, o, owner, random) == Some(Overwritten(o, content, owner))
  {}

  /** The role is overwritten, and given up by the resource. */
  lemma RoleAfter(e: Event, s: Objects)
    ensures var k := KeyOf(e.cr, AgentClusterRole); At(After(e, s), k) == Some(Overwritten(At(s, k), RoleContent(e, s), e.cr))
  {
    SharedWrites(e.op, e.cr, OutcomeOf(e, s));
    SharedAreWritten(e, s, AgentClusterRole);
    OverwriteEffect(KeyOf(e.cr, AgentClusterRole), RoleContent(e, s), At(s, KeyOf(e.cr, AgentClusterRole)), e.cr, e.random);
  }

  /** An object that keeps its content, and which the resource gives up. */
  function GivenUp(o: Stored, owner: Request): Stored { o.(controller := Adopt(o.controller, owner, true)) }

  lemma EnsureEffect(w: Write, o: Option<Stored>, owner: Request, random: Random)
    requires w.Ensured? && w.retain
    ensures Effect(w, w.key, o, owner, random)
         == Some(GivenUp(if o.Some? then o.value else Stored(map[], None, w.content, map[]), owner))
  {}

  /** An existing binding keeps its subject. */
  lemma BindingAfter(e: Event, s: Objects)
    ensures var k := KeyOf(e.cr, AgentClusterRoleBinding);
            var o := At(After(e, s), k);
            && o.Some? && (k in s ==> o.value == GivenUp(s[k], e.cr)) && (k !in s ==> o.value.controller.None?)
  {
    var k, w := KeyOf(e.cr, AgentClusterRoleBinding), PlannedWrite(e.op, e.cr, OutcomeOf(e, s), AgentClusterRoleBinding);
    SharedWrites(e.op, e.cr, OutcomeOf(e, s));
    SharedAreWritten(e, s, AgentClusterRoleBinding);
    EnsureEffect(w, At(s, k), e.cr, e.random);
  }
}

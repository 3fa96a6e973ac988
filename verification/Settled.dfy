/**
  Once all resources have settled, reconciles may interleave call by call: whatever the threads do, nothing changes.
*/
module Settled {
  import opened Convergence
  import opened Events
  import opened Generation
  import opened Independence
  import opened Normalisation
  import opened ObjectNames
  import opened Plan
  import opened Resource
  import opened Runs
  import opened Store
  import opened WholeOperator

  /** No API key is kept in the secret of the ClickHouse password, which would be owned and given up in turns. */
  predicate PasswordApart(cr: Request, spec: CorootSpec)
  {
    NamesApart(ApiKeySelectors(spec), PasswordSelectors(cr, spec))
  }

  /** The call is one that a reconcile of the resource makes if it finds the store as it is in this world. */
  ghost predicate MadeIn(op: Operator, specs: Specs, w: World, c: Call)
  {
    c.cr in specs && c in CallsOf(EventOf(op, specs, w, Turn(c.cr, c.random)), w.objects)
  }

  ghost predicate AllMadeIn(op: Operator, specs: Specs, w: World, calls: seq<Call>)
  {
    forall c | c in calls :: MadeIn(op, specs, w, c)
  }

  lemma BothGenerated(op: Operator, cr: Request, spec: CorootSpec, o: Outcome, f: bool, i: nat, j: nat, k: Key)
    requires o.notes.apiKeys == ApiKeysOf(spec) && PasswordApart(cr, spec)
    requires o.spec.agentsOnly == spec.agentsOnly && o.spec.externalClickhouse == spec.externalClickhouse
    requires i < |Writes(op, cr, o, f)| && j < |Writes(op, cr, o, f)|
    requires var ws := Writes(op, cr, o, f);
             ws[i].Generated? && ws[j].Generated? && Touches(ws[i], k) && Touches(ws[j], k)
    ensures Writes(op, cr, o, f)[i] == Writes(op, cr, o, f)[j]
  {
    var p := WriteOrigin(op, cr, o, f, i);
    var q := WriteOrigin(op, cr, o, f, j);
    if p.Some? { GeneratingPart(op, cr, o, p.value); }
    if q.Some? { GeneratingPart(op, cr, o, q.value); }
    PasswordPart(o.spec, f);
    AskedBySpec(spec);
    if p.Some? && q.None? { NotBoth(cr, spec, k); }
    if p.None? && q.Some? { NotBoth(cr, spec, k); }
  }

  lemma NotBoth(cr: Request, spec: CorootSpec, k: Key)
    requires PasswordApart(cr, spec) && !spec.agentsOnly && !spec.externalClickhouse
    requires k.name in ApiKeysOf(spec) && ApiKeysOf(spec)[k.name] != []
    ensures k.name != NameOf(cr, PasswordSecret)
  {
    AskedBySpec(spec);
    assert Selector(k.name, ApiKeysOf(spec)[k.name][0]) in AsksOf(ApiKeysOf(spec));
  }

  lemma PlanStandsAlone(e: Event, s: Objects, i: nat)
    requires PasswordApart(e.cr, e.spec) && i < |EventWrites(e, s)|
    ensures StandsAlone(EventWrites(e, s), i)
  {
    var ws, o := EventWrites(e, s), OutcomeOf(e, s);
    WritesCoherent(e.op, e.cr, o, e.legacyDeleted);
    OutcomeApiKeys(e.op, e.cr, e.spec, s, e.random);
    OutcomeKeepsLayout(e.op, e.cr, e.spec, s, e.random);
    forall j, k | 0 <= j < |ws| && Touches(ws[i], k) && Touches(ws[j], k) ensures ws[j] == ws[i] {
      if ws[i] != ws[j] { BothGenerated(e.op, e.cr, e.spec, o, e.legacyDeleted, i, j, k); }
    }
  }

  /** A call of a reconcile that would change nothing changes nothing. */
  lemma CallIdle(e: Event, s: Objects, c: Call)
    requires PasswordApart(e.cr, e.spec) && After(e, s) == s && c in CallsOf(e, s)
    ensures AfterCall(c, s) == s
  {
    CallsMakeWrites(e, s);
    var i :| 0 <= i < |CallsOf(e, s)| && CallsOf(e, s)[i] == c;
    assert WritesOf(CallsOf(e, s))[i] == WriteOf(c);
    PlanStandsAlone(e, s, i);
    SingleWriteIdle(s, EventWrites(e, s), i, e.cr, e.random);
  }

  /** However the calls of any number of reconciles interleave, a settled store stays as it is. */
  lemma {:induction false} InterleavingsIdle(op: Operator, specs: Specs, w: World, calls: seq<Call>)
    requires forall cr | cr in specs :: Stable(op, specs, w, cr) && PasswordApart(cr, specs[cr])
    requires AllMadeIn(op, specs, w, calls)
    ensures AfterCalls(calls, w.objects) == w.objects
  {
    if calls != [] {
      var last := calls[|calls| - 1];
      InterleavingsIdle(op, specs, w, calls[..|calls| - 1]);
      assert MadeIn(op, specs, w, last) && FixedFor(op, specs, w, last.cr, last.random);
      CallIdle(EventOf(op, specs, w, Turn(last.cr, last.random)), w.objects, last);
    }
  }

  /** After every resource has been reconciled twice, interleaving reconciles leave the store as it is. */
  lemma SettledForGood(op: Operator, specs: Specs, w: World, turns: seq<Turn>, calls: seq<Call>)
    requires Separate(op, specs) && AreTurns(specs, turns)
    requires forall cr | cr in specs :: Count(turns, cr) >= 2 && PasswordApart(cr, specs[cr])
    requires AllMadeIn(op, specs, RunOf(op, specs, w, turns), calls)
    ensures AfterCalls(calls, RunOf(op, specs, w, turns).objects) == RunOf(op, specs, w, turns).objects
  {
    forall cr | cr in specs ensures Stable(op, specs, RunOf(op, specs, w, turns), cr) { TurnsSettle(op, specs, w, turns, cr); }
    InterleavingsIdle(op, specs, RunOf(op, specs, w, turns), calls);
  }
}

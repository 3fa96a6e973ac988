/**
  `MergeSpecs`: the three-way merge of a live object's specification, together with the bookkeeping it
  keeps in the object's annotations about what the operator applied last.
*/
module LastApplied {
  import opened GoMaps
  import opened Json
  import opened Options
  import opened ThreeWayMerge

  const MARKER := "operator.coroot.com/last-applied-configuration"

  /** An annotation: a text that is not a JSON record of what was applied, or such a record. */
  datatype Value = Plain(text: string) | Record(annotations: Annotations, spec: Json)

  type Annotations = map<string, Value>

  datatype MergeError = MalformedRecord

  function Marker(annotations: Annotations): Value
  {
    if MARKER in annotations then annotations[MARKER] else Plain("")
  }

  /** The annotations the operator set last. */
  function Owned(annotations: Annotations): set<string>
  {
    match Marker(annotations)
    case Record(owned, _) => owned.Keys
    case Plain(_) => {}
  }

  /** The specification recorded as applied last. */
  function Original(annotations: Annotations): Result<Json, MergeError>
  {
    match Marker(annotations)
    case Record(_, spec) => if spec.Object? || spec.Null? then Ok(spec) else Err(MalformedRecord)
    case Plain(text) => if text == "" then Ok(EMPTY) else Err(MalformedRecord)
  }

  /** What a marker means: nothing applied yet, a text that cannot be read, or what was applied last. */
  lemma MarkerMeans(annotations: Annotations)
    ensures MARKER !in annotations ==> Owned(annotations) == {} && Original(annotations) == Ok(EMPTY)
    ensures MARKER in annotations ==>
              match annotations[MARKER]
              case Plain(text) => Owned(annotations) == {} && (text != "" <==> Original(annotations) == Err(MalformedRecord))
              case Record(owned, spec) => Owned(annotations) == owned.Keys && (spec.Object? ==> Original(annotations) == Ok(spec))
  {}

  /** Annotations after one merge: the owned ones are replaced by the wanted ones, and the record is renewed. */
  function Stamped(annotations: Annotations, wanted: Annotations, spec: Json): Annotations
  {
    (annotations - Owned(annotations)) + wanted + map[MARKER := Record(wanted, spec)]
  }

  // ---- the method, over Go maps that may be shared ----

  class LiveObject {
    var annotations: GoMap?<Value>
    var spec: Json

    constructor (annotations: GoMap?<Value>, spec: Json)
      ensures this.annotations == annotations && this.spec == spec
    {
      this.annotations, this.spec := annotations, spec;
    }
  }

  /** What a merge records as wanted: when both are one map, deleting what was owned also deletes it from `wanted`. */
  function Wanted(annotations: Annotations, wanted: Annotations, shared: bool): Annotations
  {
    if shared then annotations - Owned(annotations) else wanted
  }

  /** The bookkeeping part of `MergeSpecs`; the record is taken before the marker is written. */
  method StampAnnotations(annotations: GoMap<Value>, wanted: GoMap?<Value>, target: Json)
    modifies annotations
    ensures annotations.m
         == Stamped(old(annotations.m), Wanted(old(annotations.m), old(Contents(wanted)), annotations == wanted), target)
  {
    DeleteAll(annotations, Owned(annotations.m));
    ghost var kept := annotations.m;
    assert kept + kept == kept;
    CopyAll(annotations, wanted);
    var record := Record(Contents(wanted), target);
    annotations.m := annotations.m[MARKER := record];
  }

  /**
    Merges `target` into the live object.  On creation `wanted` is the object's own annotation map.
  */
  method MergeSpecs(obj: LiveObject, target: Spec, wanted: GoMap?<Value>) returns (result: Result<(), MergeError>)
    requires obj.spec.Object?
    modifies obj, obj.annotations
    ensures obj.annotations != null
    ensures if old(obj.annotations) == null then fresh(obj.annotations) else obj.annotations == old(obj.annotations)
    ensures var before := old(Contents(obj.annotations));
            var shared := wanted != null && wanted == old(obj.annotations);
            obj.annotations.m == Stamped(before, Wanted(before, old(Contents(wanted)), shared), target)
    ensures wanted != null && wanted != old(obj.annotations) ==> wanted.m == old(wanted.m)
    ensures match Original(old(Contents(obj.annotations)))
            case Ok(original) => result == Ok(()) && obj.spec == Merge(original, target, old(obj.spec))
            case Err(e) => result == Err(e) && obj.spec == old(obj.spec)
  {
    var annotations := obj.annotations;
    if annotations == null {
      annotations := new GoMap<Value>(map[]);
    }
    var original := Original(annotations.m);
    StampAnnotations(annotations, wanted, target);
    obj.annotations := annotations;
    if original.Err? {
      return Err(original.error);
    }
    obj.spec := Merge(original.value, target, obj.spec);
    return Ok(());
  }

  // ---- runs ----

  /** What one merge is asked to establish. */
  datatype Wish = Wish(annotations: Annotations, spec: Spec)

  function StampRun(annotations: Annotations, wishes: seq<Wish>): Annotations
  {
    if wishes == [] then annotations
    else
      var last := wishes[|wishes| - 1];
      Stamped(StampRun(annotations, wishes[..|wishes| - 1]), last.annotations, last.spec)
  }

  function EverWanted(wishes: seq<Wish>): set<string>
  {
    if wishes == [] then {} else EverWanted(wishes[..|wishes| - 1]) + wishes[|wishes| - 1].annotations.Keys
  }

  /**
    Without foreign edits, after any run of merges the annotations are the initial ones without any key ever
    wanted, plus the latest wish, plus the record, which holds exactly the latest wish.
  */
  lemma {:induction false} AnnotationsTracked(annotations: Annotations, wishes: seq<Wish>)
    requires wishes != []
    requires forall w | w in wishes :: MARKER !in w.annotations
    ensures var last := wishes[|wishes| - 1];
            StampRun(annotations, wishes)
            == (annotations - Owned(annotations) - EverWanted(wishes)) + last.annotations
               + map[MARKER := Record(last.annotations, last.spec)]
  {
    var front, last := wishes[..|wishes| - 1], wishes[|wishes| - 1];
    var unowned := annotations - Owned(annotations);
    assert unowned - EverWanted(wishes) == unowned - EverWanted(front) - last.annotations.Keys;
    if front == [] {
      FirstStamp(unowned, last);
      assert StampRun(annotations, front) == annotations && unowned - EverWanted(front) == unowned;
    } else {
      var previous := front[|front| - 1];
      AnnotationsTracked(annotations, front);
      LastIsEverWanted(front);
      NextStamp(unowned - EverWanted(front), previous, last);
    }
  }

  lemma FirstStamp(unowned: Annotations, wish: Wish)
    ensures unowned + wish.annotations + map[MARKER := Record(wish.annotations, wish.spec)]
         == (unowned - wish.annotations.Keys) + wish.annotations + map[MARKER := Record(wish.annotations, wish.spec)]
  {}

  lemma LastIsEverWanted(wishes: seq<Wish>)
    requires wishes != []
    ensures wishes[|wishes| - 1].annotations.Keys <= EverWanted(wishes)
  {}

  /** A stamp replaces the previous wish by the next one. */
  lemma NextStamp(kept: Annotations, previous: Wish, next: Wish)
    requires MARKER !in previous.annotations && kept.Keys !! previous.annotations.Keys
    ensures Stamped(kept + previous.annotations + map[MARKER := Record(previous.annotations, previous.spec)], next.annotations, next.spec)
         == (kept - next.annotations.Keys) + next.annotations + map[MARKER := Record(next.annotations, next.spec)]
  {
    var before := kept + previous.annotations + map[MARKER := Record(previous.annotations, previous.spec)];
    assert Owned(before) == previous.annotations.Keys;
    assert (before - Owned(before)).Keys == kept.Keys + {MARKER};
  }

  /** Stamping the same wish again changes nothing. */
  lemma StampAgain(annotations: Annotations, wanted: Annotations, spec: Json)
    ensures Stamped(Stamped(annotations, wanted, spec), wanted, spec) == Stamped(annotations, wanted, spec)
  {
    var once := Stamped(annotations, wanted, spec);
    assert Owned(once) == wanted.Keys;
  }
}

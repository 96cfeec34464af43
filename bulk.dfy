/**
 * What both versions of the bulk association endpoint share: the request as
 * the view reads it, the order of the per-measure checks inside the
 * transaction, and the outcomes. The two views differ in the request key
 * of the measures, the shape of their error values and how a scalar is
 * treated; those parts live with each view (LegacyViews, ViewSets).
 */
module Bulk {
  import opened Wrappers
  import Text
  import Auth

  /** The measures value of the request body, as `data.get(key)` returns it. */
  datatype MeasureField =
    | Missing                 // key absent or JSON null: `is None`
    | Scalar(n: int)          // a JSON integer
    | IdList(ids: seq<int>)   // a JSON list of integers
    | OtherValue              // any other value without a length (a JSON float, say)

  datatype BulkRequest = BulkRequest(plan: Option<int>, organismo: Option<int>, measures: MeasureField)

  /** The (plan, organism, measure) columns of an association row. */
  datatype Triple = Triple(plan: int, organismo: int, medida: int)

  /**
   * What the database does when the i-th row of the batch is saved. The model
   * does not say where such failures come from; it only requires that each
   * aborts the transaction.
   */
  datatype StoreFault = NoFault | IntegrityFault | InternalFault

  /** Error values: a plain string, or the one-element list a `ValidationError` holds. */
  datatype Detail = Message(text: string) | MessageList(items: seq<string>)

  datatype Outcome<+R> =
    | Created(rows: seq<R>)
    | Forbidden(reason: Auth.AccessDenial)
    | MissingFields(errors: map<string, Detail>)
    | BadShape(message: string)
    | Duplicates(detail: Detail)
    | AlreadyAssociated(medida: int, detail: Detail)
    | InvalidRef(fields: set<string>)
    | Integrity
    | Unexpected
  {
    /** The `cantidad` of a successful response: `len(instancias_creadas)`. */
    function Cantidad(): nat
      requires Created?
    {
      |rows|
    }
  }

  const PlanKey := "id_plan"
  const OrganismoKey := "id_organismo_sectorial"
  /** The field of the association serializer that holds the measure. */
  const MedidaSerializerKey := "id_media"
  const RequiredMessage := "Este campo es obligatorio."
  const DuplicatesMessage := "Existen medidas duplicadas."

  function AlreadyAssociatedMessage(medida: int): string
  {
    "La medida " + Text.IntToString(medida) + " ya está asociada al plan y organismo."
  }

  // ----- presence -----

  /** The request slot of each required field, by the key it is read from. */
  predicate Absent(req: BulkRequest, measuresKey: string, key: string)
  {
    || (key == PlanKey && req.plan.None?)
    || (key == OrganismoKey && req.organismo.None?)
    || (key == measuresKey && req.measures.Missing?)
  }

  /**
   * The `errores` dictionary: one entry, holding `value`, per required field
   * that is absent, and nothing else.
   */
  function MissingErrors(req: BulkRequest, measuresKey: string, value: Detail): (m: map<string, Detail>)
    requires measuresKey != PlanKey && measuresKey != OrganismoKey
    ensures forall key :: key in m <==> Absent(req, measuresKey, key)
    ensures forall key :: key in m ==> m[key] == value
    ensures m == map[] <==> req.plan.Some? && req.organismo.Some? && !req.measures.Missing?
  {
    var m1: map<string, Detail> := if req.plan.None? then map[PlanKey := value] else map[];
    var m2 := if req.organismo.None? then m1[OrganismoKey := value] else m1;
    var m3 := if req.measures.Missing? then m2[measuresKey := value] else m2;
    assert req.plan.None? ==> PlanKey in m3;
    assert req.organismo.None? ==> OrganismoKey in m3;
    assert req.measures.Missing? ==> measuresKey in m3;
    m3
  }

  // ----- duplicates: `len(medidas) != len(set(medidas))` -----

  function SetOf(xs: seq<int>): set<int>
  {
    set x | x in xs
  }

  predicate HasDuplicates(xs: seq<int>)
  {
    |xs| != |SetOf(xs)|
  }

  predicate Distinct(xs: seq<int>)
  {
    forall i, j :: 0 <= i < j < |xs| ==> xs[i] != xs[j]
  }

  lemma {:induction false} SetOfSize(xs: seq<int>)
    ensures |SetOf(xs)| <= |xs|
    ensures Distinct(xs) <==> |SetOf(xs)| == |xs|
    decreases |xs|
  {
    if xs != [] {
      var rest := xs[1..];
      SetOfSize(rest);
      assert SetOf(xs) == {xs[0]} + SetOf(rest);
      if xs[0] in rest {
        assert SetOf(xs) == SetOf(rest);
        var j :| 0 <= j < |rest| && rest[j] == xs[0];
        assert xs[0] == xs[j + 1];
      } else {
        assert xs[0] !in SetOf(rest);
        assert |SetOf(xs)| == |SetOf(rest)| + 1;
        if Distinct(rest) {
          assert Distinct(xs) by {
            forall i, j | 0 <= i < j < |xs| ensures xs[i] != xs[j] {
              if i > 0 { assert xs[i] == rest[i - 1] && xs[j] == rest[j - 1]; }
              else { assert xs[j] == rest[j - 1]; }
            }
          }
        } else {
          var i, j :| 0 <= i < j < |rest| && rest[i] == rest[j];
          assert xs[i + 1] == xs[j + 1];
        }
      }
    }
  }

  /** The cardinality test detects exactly the lists with a repeated id. */
  lemma DistinctIffNoDuplicates(xs: seq<int>)
    ensures Distinct(xs) <==> !HasDuplicates(xs)
  {
    SetOfSize(xs);
  }

  // ----- the checks of one iteration -----

  /** The ids of rows that exist, whichever their activity flag. */
  datatype Store = Store(plans: set<int>, organisms: set<int>, measures: set<int>)

  /**
   * `PlanOrganismoSectorialSerializer(...).is_valid()`: the fields whose
   * foreign key names no existing row.
   */
  function FieldErrors(store: Store, t: Triple): (fields: set<string>)
    ensures PlanKey in fields <==> t.plan !in store.plans
    ensures OrganismoKey in fields <==> t.organismo !in store.organisms
    ensures MedidaSerializerKey in fields <==> t.medida !in store.measures
    ensures fields <= {PlanKey, OrganismoKey, MedidaSerializerKey}
  {
    (if t.plan in store.plans then {} else {PlanKey})
    + (if t.organismo in store.organisms then {} else {OrganismoKey})
    + (if t.medida in store.measures then {} else {MedidaSerializerKey})
  }

  /** Why one measure aborts the batch. */
  datatype Refusal =
    | AlreadyLinked(medida: int)
    | InvalidRefs(fields: set<string>)
    | IntegrityFailure
    | InternalFailure

  /**
   * One iteration, in the view's order: the existence test against the
   * triples `seen` in the table, then the serializer, then the save.
   */
  function CheckRow(seen: seq<Triple>, store: Store, t: Triple, fault: StoreFault): (r: Option<Refusal>)
    ensures r == None <==> t !in seen && FieldErrors(store, t) == {} && fault == NoFault
    ensures t in seen ==> r == Some(AlreadyLinked(t.medida))
  {
    if t in seen then Some(AlreadyLinked(t.medida))
    else if FieldErrors(store, t) != {} then Some(InvalidRefs(FieldErrors(store, t)))
    else match fault
      case NoFault => None
      case IntegrityFault => Some(IntegrityFailure)
      case InternalFault => Some(InternalFailure)
  }

  /** The batch: a plan, an organism, the measures in request order and the save outcomes. */
  datatype Batch = Batch(plan: int, organismo: int, ids: seq<int>, faults: seq<StoreFault>)
  {
    function TripleAt(i: nat): Triple
      requires i < |ids|
    {
      Triple(plan, organismo, ids[i])
    }

    function FaultAt(i: nat): StoreFault
    {
      if i < |faults| then faults[i] else NoFault
    }

    /** The triples of the rows the first `n` iterations insert. */
    function Pending(n: nat): (ts: seq<Triple>)
      requires n <= |ids|
      ensures |ts| == n
      ensures forall k :: 0 <= k < n ==> ts[k] == TripleAt(k)
    {
      seq(n, k requires 0 <= k < n => TripleAt(k))
    }
  }

  /**
   * The i-th measure checked against the table as it was BEFORE the batch.
   * The loop checks against the table with the pending rows included;
   * PendingDoNotBlock shows the two agree on a request without repeated ids.
   */
  function RefusalAt(existing: seq<Triple>, store: Store, b: Batch, i: nat): Option<Refusal>
    requires i < |b.ids|
  {
    CheckRow(existing, store, b.TripleAt(i), b.FaultAt(i))
  }

  /** The first measure at or after `from` that aborts the batch, with why. */
  function FirstRefusal(existing: seq<Triple>, store: Store, b: Batch, from: nat): (r: Option<(nat, Refusal)>)
    requires from <= |b.ids|
    ensures r.Some? ==> from <= r.value.0 < |b.ids| && RefusalAt(existing, store, b, r.value.0) == Some(r.value.1)
    ensures r.Some? ==> forall j :: from <= j < r.value.0 ==> RefusalAt(existing, store, b, j).None?
    ensures r.None? <==> forall j :: from <= j < |b.ids| ==> RefusalAt(existing, store, b, j).None?
    decreases |b.ids| - from
  {
    if from == |b.ids| then None
    else
      match RefusalAt(existing, store, b, from)
      case Some(why) => Some((from, why))
      case None => FirstRefusal(existing, store, b, from + 1)
  }

  /**
   * The rows a batch inserts never block a later measure of the same batch:
   * with no repeated ids, a triple is among the table's rows plus those
   * already inserted exactly when it is among the table's rows.
   */
  lemma PendingDoNotBlock(existing: seq<Triple>, b: Batch, i: nat)
    requires Distinct(b.ids) && i < |b.ids|
    ensures b.TripleAt(i) in existing + b.Pending(i) <==> b.TripleAt(i) in existing
  {
  }

  /** The outcome that reports a refused measure; the same in both views. */
  function RefusalOutcome<R>(why: Refusal): Outcome<R>
  {
    match why
    case AlreadyLinked(m) => AlreadyAssociated(m, MessageList([AlreadyAssociatedMessage(m)]))
    case InvalidRefs(fields) => InvalidRef(fields)
    case IntegrityFailure => Integrity
    case InternalFailure => Unexpected
  }

  /**
   * When every measure before `i` passes and the i-th is refused, that is
   * the first refusal of the batch.
   */
  lemma FirstRefusalIs(existing: seq<Triple>, store: Store, b: Batch, i: nat, why: Refusal)
    requires i < |b.ids|
    requires forall j :: 0 <= j < i ==> RefusalAt(existing, store, b, j).None?
    requires RefusalAt(existing, store, b, i) == Some(why)
    ensures FirstRefusal(existing, store, b, 0) == Some((i, why))
  {
    var r := FirstRefusal(existing, store, b, 0);
    assert r.Some?;
    var k := r.value.0;
    assert !(k < i);
    assert !(i < k);
  }
}

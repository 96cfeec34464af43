/**
 * The function views of django_proyecto/api/views.py: the GET and POST
 * guards of the six views and the bulk association branch of
 * `plan_organismo_sectorial`.
 */
module LegacyViews {
  import opened Wrappers
  import opened Auth
  import opened Bulk
  import Models
  import LegacyModels

  const NoPermissionMessage := "No tiene permisos para realizar esta acción."
  /** The request key this version reads the measures from. */
  const MedidasKey := "medidas"
  const BadShapeMessage := "El campo 'medidas' debe ser un entero o una lista de enteros."

  datatype View =
    | TipoMedidaView
    | MedidaView
    | PlanView
    | OrganismoSectorialView
    | PlanOrganismoSectorialView
    | ReporteView

  /**
   * The GET guard of every view: authenticated, or administrator, or
   * sectorial organism. Both roles imply authentication, so it is just
   * authentication.
   */
  function GetGuard(p: Principal): (ok: bool)
    ensures ok <==> p.isAuthenticated
  {
    IsAuthenticated(p) || IsAdministrador(p) || IsOrganismoSectorial(p)
  }

  /** The POST guard: administrator, except that `reporte` also admits a sectorial organism. */
  function PostGuard(v: View, p: Principal): (ok: bool)
    ensures ok ==> p.isAuthenticated
    ensures v != ReporteView ==> (ok <==> p.isAuthenticated && AdministradorGroup in p.groups)
    ensures v == ReporteView ==>
      (ok <==> p.isAuthenticated && (AdministradorGroup in p.groups || OrganismoSectorialGroup in p.groups))
  {
    if v == ReporteView then IsAdministrador(p) || IsOrganismoSectorial(p) else IsAdministrador(p)
  }

  /** A GET: all rows of the table (`objects.all()`; this schema has no activity flag). */
  function HandleGet<T>(p: Principal, rows: seq<T>): (r: Response<seq<T>>)
    ensures r.Ok? <==> p.isAuthenticated
    ensures r.Ok? ==> r.value == rows
    ensures !r.Ok? ==> r == Denied(PermissionDenied(NoPermissionMessage))
  {
    if GetGuard(p) then Ok(rows) else Denied(PermissionDenied(NoPermissionMessage))
  }

  /** Step 3 of the view: an integer becomes a one-element list; anything else but a list is refused. */
  function NormalisedIds(f: MeasureField): Option<seq<int>>
  {
    match f
    case Scalar(n) => Some([n])
    case IdList(ids) => Some(ids)
    case _ => None
  }

  function Triples(rows: seq<LegacyModels.PlanOrganismoSectorial>): (ts: seq<Triple>)
    ensures |ts| == |rows|
    ensures forall k :: 0 <= k < |rows| ==>
      ts[k] == Triple(rows[k].idPlan, rows[k].idOrganismoSectorial, rows[k].idMedia)
  {
    seq(|rows|, k requires 0 <= k < |rows| =>
      Triple(rows[k].idPlan, rows[k].idOrganismoSectorial, rows[k].idMedia))
  }

  function Keys(rows: seq<LegacyModels.PlanOrganismoSectorial>): (keys: seq<int>)
    ensures |keys| == |rows|
    ensures forall k :: 0 <= k < |rows| ==> keys[k] == rows[k].idPlanOrganismoSectorial
  {
    seq(|rows|, k requires 0 <= k < |rows| => rows[k].idPlanOrganismoSectorial)
  }

  /** The rows a successful batch inserts, keyed from `next` on, in request order. */
  function NewRows(b: Batch, next: int): (rows: seq<LegacyModels.PlanOrganismoSectorial>)
    ensures |rows| == |b.ids|
    ensures forall k :: 0 <= k < |rows| ==>
      rows[k] == LegacyModels.PlanOrganismoSectorial(next + k, b.plan, b.organismo, b.ids[k])
  {
    seq(|b.ids|, k requires 0 <= k < |b.ids| =>
      LegacyModels.PlanOrganismoSectorial(next + k, b.plan, b.organismo, b.ids[k]))
  }

  /** What the table may hold: auto-increment keys, and references to existing rows. */
  ghost predicate ValidTable(rows: seq<LegacyModels.PlanOrganismoSectorial>, next: int, store: Store)
  {
    && next >= 1
    && Models.AutoIncrementKeys(Keys(rows), next)
    && forall k :: 0 <= k < |rows| ==>
         && rows[k].idPlan in store.plans
         && rows[k].idOrganismoSectorial in store.organisms
         && rows[k].idMedia in store.measures
  }

  /** Saving one more row keeps the table valid, if its references exist. */
  lemma AppendKeepsValid(
    rows: seq<LegacyModels.PlanOrganismoSectorial>, next: int, store: Store,
    row: LegacyModels.PlanOrganismoSectorial)
    requires ValidTable(rows, next, store)
    requires row.idPlanOrganismoSectorial == next
    requires FieldErrors(store, Triple(row.idPlan, row.idOrganismoSectorial, row.idMedia)) == {}
    ensures ValidTable(rows + [row], next + 1, store)
    ensures Triples(rows + [row]) == Triples(rows) + [Triple(row.idPlan, row.idOrganismoSectorial, row.idMedia)]
  {
    Models.AutoIncrementAppend(Keys(rows), next);
    assert Keys(rows + [row]) == Keys(rows) + [next];
  }

  /** The transaction of a batch without repeated ids, stated without the loop. */
  function BatchOutcome(b: Batch, rows: seq<LegacyModels.PlanOrganismoSectorial>, next: int, store: Store)
    : Outcome<LegacyModels.PlanOrganismoSectorial>
  {
    match FirstRefusal(Triples(rows), store, b, 0)
    case Some((_, why)) => RefusalOutcome(why)
    case None => Created(NewRows(b, next))
  }

  /**
   * The response to a POST, stated without the loop: the guard, the presence
   * check, normalisation and the duplicate check in that order, then the
   * first measure, in request order, refused against the table as it was.
   */
  function PostOutcome(
    p: Principal, req: BulkRequest, faults: seq<StoreFault>,
    rows: seq<LegacyModels.PlanOrganismoSectorial>, next: int, store: Store)
    : Outcome<LegacyModels.PlanOrganismoSectorial>
  {
    if !PostGuard(PlanOrganismoSectorialView, p) then Forbidden(PermissionDenied(NoPermissionMessage))
    else
      var errores := MissingErrors(req, MedidasKey, Message(RequiredMessage));
      if errores != map[] then MissingFields(errores)
      else
        match NormalisedIds(req.measures)
        case None => BadShape(BadShapeMessage)
        case Some(ids) =>
          if HasDuplicates(ids) then Duplicates(Message(DuplicatesMessage))
          else BatchOutcome(Batch(req.plan.value, req.organismo.value, ids, faults), rows, next, store)
  }

  // ----- properties of a POST -----

  /** Only an administrator gets past the guard; anyone else gets the fixed refusal. */
  lemma PostRequiresAdministrador(
    p: Principal, req: BulkRequest, faults: seq<StoreFault>,
    rows: seq<LegacyModels.PlanOrganismoSectorial>, next: int, store: Store)
    ensures PostOutcome(p, req, faults, rows, next, store).Forbidden? <==> !IsAdministrador(p)
    ensures !IsAdministrador(p) ==>
      PostOutcome(p, req, faults, rows, next, store) == Forbidden(PermissionDenied(NoPermissionMessage))
  {
  }

  /** Every absent field is reported, in one map, before any other check. */
  lemma MissingFieldsReportedTogether(
    p: Principal, req: BulkRequest, faults: seq<StoreFault>,
    rows: seq<LegacyModels.PlanOrganismoSectorial>, next: int, store: Store)
    requires IsAdministrador(p)
    requires req.plan.None? || req.organismo.None? || req.measures.Missing?
    ensures var r := PostOutcome(p, req, faults, rows, next, store);
      && r.MissingFields?
      && (forall key :: key in r.errors <==> Absent(req, MedidasKey, key))
      && (forall key :: key in r.errors ==> r.errors[key] == Message(RequiredMessage))
  {
  }

  /** An integer is handled exactly as the one-element list holding it. */
  lemma ScalarIsOneElementList(
    p: Principal, plan: Option<int>, organismo: Option<int>, n: int, faults: seq<StoreFault>,
    rows: seq<LegacyModels.PlanOrganismoSectorial>, next: int, store: Store)
    ensures PostOutcome(p, BulkRequest(plan, organismo, Scalar(n)), faults, rows, next, store)
         == PostOutcome(p, BulkRequest(plan, organismo, IdList([n])), faults, rows, next, store)
  {
  }

  /** A measures value that is neither an integer nor a list is refused with the fixed message. */
  lemma OtherShapeRefused(
    p: Principal, plan: int, organismo: int, faults: seq<StoreFault>,
    rows: seq<LegacyModels.PlanOrganismoSectorial>, next: int, store: Store)
    requires IsAdministrador(p)
    ensures PostOutcome(p, BulkRequest(Some(plan), Some(organismo), OtherValue), faults, rows, next, store)
         == BadShape(BadShapeMessage)
  {
  }

  /**
   * A repeated id is refused before the table is consulted: the outcome does
   * not depend on the table or on the stored rows.
   */
  lemma DuplicatesRefusedBeforeLookup(
    p: Principal, plan: int, organismo: int, ids: seq<int>, faults: seq<StoreFault>,
    rows: seq<LegacyModels.PlanOrganismoSectorial>, next: int, store: Store)
    requires IsAdministrador(p)
    requires !Distinct(ids)
    ensures PostOutcome(p, BulkRequest(Some(plan), Some(organismo), IdList(ids)), faults, rows, next, store)
         == Duplicates(Message(DuplicatesMessage))
  {
    DistinctIffNoDuplicates(ids);
  }

  /**
   * The transaction's outcome: success exactly when no measure is refused,
   * with one row per measure in request order; otherwise the error names the
   * first refused measure.
   */
  lemma {:induction false} BatchOutcomeCases(
    b: Batch, rows: seq<LegacyModels.PlanOrganismoSectorial>, next: int, store: Store)
    ensures var r := BatchOutcome(b, rows, next, store);
      && (r.Created? <==> forall j :: 0 <= j < |b.ids| ==> RefusalAt(Triples(rows), store, b, j).None?)
      && (r.Created? ==> r.Cantidad() == |b.ids| && r.rows == NewRows(b, next))
      && (r.AlreadyAssociated? ==>
            exists i :: 0 <= i < |b.ids| && b.ids[i] == r.medida
              && b.TripleAt(i) in Triples(rows)
              && forall j :: 0 <= j < i ==> RefusalAt(Triples(rows), store, b, j).None?)
      && (r.InvalidRef? ==>
            exists i :: 0 <= i < |b.ids| && r.fields == FieldErrors(store, b.TripleAt(i)) != {}
              && b.TripleAt(i) !in Triples(rows)
              && forall j :: 0 <= j < i ==> RefusalAt(Triples(rows), store, b, j).None?)
      && (r.Created? || r.AlreadyAssociated? || r.InvalidRef? || r.Integrity? || r.Unexpected?)
  {
    var f := FirstRefusal(Triples(rows), store, b, 0);
    if f.Some? {
      var i := f.value.0;
      assert RefusalAt(Triples(rows), store, b, i) == Some(f.value.1);
      assert b.TripleAt(i).medida == b.ids[i];
    }
  }

  /** An empty list succeeds with `cantidad == 0` and adds nothing, whatever the ids given. */
  lemma EmptyListCreatesNothing(
    p: Principal, plan: int, organismo: int, faults: seq<StoreFault>,
    rows: seq<LegacyModels.PlanOrganismoSectorial>, next: int, store: Store)
    requires IsAdministrador(p)
    ensures PostOutcome(p, BulkRequest(Some(plan), Some(organismo), IdList([])), faults, rows, next, store)
         == Created([])
  {
    assert Distinct([]);
    DistinctIffNoDuplicates([]);
  }

  /**
   * Repeating a successful non-empty request at once is refused: its first
   * measure is now associated with the plan and organism.
   */
  lemma RepeatedRequestRefused(
    p: Principal, plan: int, organismo: int, ids: seq<int>, faults: seq<StoreFault>,
    rows: seq<LegacyModels.PlanOrganismoSectorial>, next: int, store: Store, faults': seq<StoreFault>)
    requires ids != []
    requires PostOutcome(p, BulkRequest(Some(plan), Some(organismo), IdList(ids)), faults, rows, next, store).Created?
    ensures var after := rows + NewRows(Batch(plan, organismo, ids, faults), next);
      PostOutcome(p, BulkRequest(Some(plan), Some(organismo), IdList(ids)), faults', after, next + |ids|, store)
      == AlreadyAssociated(ids[0], MessageList([AlreadyAssociatedMessage(ids[0])]))
  {
    var b := Batch(plan, organismo, ids, faults);
    var b' := Batch(plan, organismo, ids, faults');
    var after := rows + NewRows(b, next);
    assert Triples(after)[|rows|] == b'.TripleAt(0);
    assert RefusalAt(Triples(after), store, b', 0) == Some(AlreadyLinked(ids[0]));
    FirstRefusalIs(Triples(after), store, b', 0, AlreadyLinked(ids[0]));
  }

  /**
   * The association table of this schema with the ids of the plans,
   * organisms and measures that exist.
   */
  class AssociationTable {
    var rows: seq<LegacyModels.PlanOrganismoSectorial>
    var nextId: int
    var plans: set<int>
    var organisms: set<int>
    var measures: set<int>

    function Existing(): Store
      reads this
    {
      Store(plans, organisms, measures)
    }

    ghost predicate Valid()
      reads this
    {
      ValidTable(rows, nextId, Existing())
    }

    constructor (plans: set<int>, organisms: set<int>, measures: set<int>)
      ensures Valid()
      ensures rows == [] && nextId == 1
      ensures this.plans == plans && this.organisms == organisms && this.measures == measures
    {
      rows := [];
      nextId := 1;
      this.plans := plans;
      this.organisms := organisms;
      this.measures := measures;
    }

    /**
     * POST on `plan_organismo_sectorial`. All rows of the batch are saved in
     * one transaction; a refusal inside it rolls the table back.
     */
    method Post(p: Principal, req: BulkRequest, faults: seq<StoreFault>)
      returns (r: Outcome<LegacyModels.PlanOrganismoSectorial>)
      requires Valid()
      modifies this`rows, this`nextId
      ensures Valid()
      ensures r == PostOutcome(p, req, faults, old(rows), old(nextId), Existing())
      ensures r.Created? ==> rows == old(rows) + r.rows && nextId == old(nextId) + |r.rows|
      ensures !r.Created? ==> rows == old(rows) && nextId == old(nextId)
    {
      if !PostGuard(PlanOrganismoSectorialView, p) {
        return Forbidden(PermissionDenied(NoPermissionMessage));
      }
      var errores := MissingErrors(req, MedidasKey, Message(RequiredMessage));
      if errores != map[] {
        return MissingFields(errores);
      }
      var ids: seq<int>;
      if req.measures.Scalar? {
        ids := [req.measures.n];
      } else if req.measures.IdList? {
        ids := req.measures.ids;
      } else {
        return BadShape(BadShapeMessage);
      }
      if HasDuplicates(ids) {
        return Duplicates(Message(DuplicatesMessage));
      }
      DistinctIffNoDuplicates(ids);
      r := SaveBatch(Batch(req.plan.value, req.organismo.value, ids, faults));
    }

    /**
     * The `transaction.atomic()` block: for each measure in order, the
     * existence query on the current table, validation and the save; the
     * first refusal restores the table as it was before the batch.
     */
    method SaveBatch(b: Batch) returns (r: Outcome<LegacyModels.PlanOrganismoSectorial>)
      requires Valid() && Distinct(b.ids)
      modifies this`rows, this`nextId
      ensures Valid()
      ensures r == BatchOutcome(b, old(rows), old(nextId), Existing())
      ensures r.Created? ==> rows == old(rows) + r.rows && nextId == old(nextId) + |r.rows|
      ensures !r.Created? ==> rows == old(rows) && nextId == old(nextId)
    {
      var savedRows, savedNext := rows, nextId;
      ghost var existing := Triples(rows);
      var created: seq<LegacyModels.PlanOrganismoSectorial> := [];
      var i := 0;
      while i < |b.ids|
        invariant 0 <= i <= |b.ids|
        invariant created == NewRows(b, savedNext)[..i]
        invariant rows == savedRows + created && nextId == savedNext + i
        invariant Triples(rows) == existing + b.Pending(i)
        invariant forall j :: 0 <= j < i ==> RefusalAt(existing, Existing(), b, j).None?
        invariant Valid()
      {
        var t := b.TripleAt(i);
        PendingDoNotBlock(existing, b, i);
        var why := CheckRow(Triples(rows), Existing(), t, b.FaultAt(i));
        if why.Some? {
          FirstRefusalIs(existing, Existing(), b, i, why.value);
          rows, nextId := savedRows, savedNext;
          return RefusalOutcome(why.value);
        }
        var row := LegacyModels.PlanOrganismoSectorial(nextId, b.plan, b.organismo, b.ids[i]);
        AppendKeepsValid(rows, nextId, Existing(), row);
        assert b.Pending(i + 1) == b.Pending(i) + [t];
        rows, nextId := rows + [row], nextId + 1;
        created := created + [row];
        i := i + 1;
      }
      assert created == NewRows(b, savedNext);
      return Created(created);
    }
  }
}

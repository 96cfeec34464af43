/**
 * The model viewsets of api/views.py: the permission lists of
 * `get_permissions`, the active-only querysets behind `list` and
 * `get_object`, the soft delete of `destroy`, and the bulk `create` of
 * `PlanOrganismoSectorialViewSet`.
 */
module ViewSets {
  import opened Wrappers
  import opened Auth
  import opened Bulk
  import Models

  const NotFoundMessage := "No se encontró un registro con ese ID."
  /** The detail Django REST framework gives a refusal by a permission without a message. */
  const DefaultDeniedMessage := "You do not have permission to perform this action."
  /** The request key this version reads the measures from. */
  const IdMedidaKey := "id_medida"

  datatype ViewSet =
    | TipoMedidaViewSet
    | MedidaViewSet
    | PlanViewSet
    | OrganismoSectorialViewSet
    | PlanOrganismoSectorialViewSet
    | ReporteViewSet

  /** `self.action` of a model viewset. */
  datatype Action = List | Create | Retrieve | Update | PartialUpdate | Destroy

  /** The permission instances `get_permissions` returns. */
  datatype Permission = IsAuthenticatedPermission | IsAdministradorPermission | IsOrganismoSectorialPermission

  /** A permission instance defines neither `__bool__` nor `__len__`, so it is always truthy. */
  predicate Truthy(perm: Permission)
  {
    true
  }

  /** Python's `a or b`: `a` when `a` is truthy, otherwise `b`. */
  function PyOr(a: Permission, b: Permission): (r: Permission)
    ensures r == a
  {
    if Truthy(a) then a else b
  }

  /** `get_permissions` of each viewset, case by case as written. */
  function GetPermissions(v: ViewSet, a: Action): seq<Permission>
  {
    match v
    case TipoMedidaViewSet =>
      if a == Create || a == Destroy then [IsAuthenticatedPermission, IsAdministradorPermission]
      else [IsAuthenticatedPermission]
    case ReporteViewSet =>
      if a == Destroy then [IsAuthenticatedPermission, IsAdministradorPermission]
      else if a == Create || a == List then
        [IsAuthenticatedPermission, PyOr(IsAdministradorPermission, IsOrganismoSectorialPermission)]
      else [IsAuthenticatedPermission]
    case _ =>
      if a == Create || a == Destroy then [IsAuthenticatedPermission, IsAdministradorPermission]
      else if a == List then
        [IsAuthenticatedPermission, PyOr(IsAdministradorPermission, IsOrganismoSectorialPermission)]
      else [IsAuthenticatedPermission]
  }

  function HasPermission(perm: Permission, p: Principal): bool
  {
    match perm
    case IsAuthenticatedPermission => IsAuthenticated(p)
    case IsAdministradorPermission => IsAdministrador(p)
    case IsOrganismoSectorialPermission => IsOrganismoSectorial(p)
  }

  /** `check_permissions`: the first permission of the list that refuses, if any. */
  function FirstRefusing(perms: seq<Permission>, p: Principal): (r: Option<Permission>)
    ensures r.None? <==> forall k :: 0 <= k < |perms| ==> HasPermission(perms[k], p)
    ensures r.Some? ==> r.value in perms && !HasPermission(r.value, p)
    decreases |perms|
  {
    if perms == [] then None
    else if !HasPermission(perms[0], p) then Some(perms[0])
    else FirstRefusing(perms[1..], p)
  }

  /**
   * Why the framework refuses `a` on `v`, if it does: unauthenticated
   * requests are told so, the others get the default refusal.
   */
  function Denial(v: ViewSet, a: Action, p: Principal): Option<AccessDenial>
  {
    if FirstRefusing(GetPermissions(v, a), p).None? then None
    else if !p.isAuthenticated then Some(NotAuthenticated)
    else Some(PermissionDenied(DefaultDeniedMessage))
  }

  /**
   * What the permission lists come to: authentication always, and the
   * administrator group for create, destroy, and list on every viewset but
   * `TipoMedida` (the `or` yields its left operand, `IsAdministrador`).
   */
  predicate AdministradorOnly(v: ViewSet, a: Action)
  {
    a == Create || a == Destroy || (a == List && v != TipoMedidaViewSet)
  }

  lemma EffectivePermissions(v: ViewSet, a: Action, p: Principal)
    ensures Denial(v, a, p).None? <==>
      p.isAuthenticated && (AdministradorOnly(v, a) ==> AdministradorGroup in p.groups)
  {
    var perms := GetPermissions(v, a);
    if p.isAuthenticated && (AdministradorOnly(v, a) ==> AdministradorGroup in p.groups) {
      assert forall k :: 0 <= k < |perms| ==> HasPermission(perms[k], p);
    } else if !p.isAuthenticated {
      assert !HasPermission(perms[0], p);
    } else {
      assert !HasPermission(perms[1], p);
    }
  }

  /** A sectorial organism outside the administrator group cannot list, or create reports. */
  lemma OrganismoSectorialRefused(v: ViewSet, a: Action, p: Principal)
    requires (a == List && v != TipoMedidaViewSet) || (a == Create && v == ReporteViewSet)
    requires p.isAuthenticated && OrganismoSectorialGroup in p.groups && AdministradorGroup !in p.groups
    ensures Denial(v, a, p) == Some(PermissionDenied(DefaultDeniedMessage))
  {
    EffectivePermissions(v, a, p);
  }

  // ----- the active-only queryset -----

  /** `objects.filter(is_active=True)`, in table order. */
  function ActiveRows<T>(rows: seq<Models.Row<T>>): (r: seq<Models.Row<T>>)
    ensures |r| <= |rows|
    ensures forall k :: 0 <= k < |r| ==> r[k].isActive && r[k] in rows
    ensures forall k :: 0 <= k < |rows| && rows[k].isActive ==> rows[k] in r
    decreases |rows|
  {
    if rows == [] then []
    else if rows[0].isActive then [rows[0]] + ActiveRows(rows[1..])
    else ActiveRows(rows[1..])
  }

  /**
   * The queryset is the order-preserving filter: taking one more row adds
   * it at the end exactly when it is active. With `ActiveRows([]) == []`
   * this determines the queryset on every table.
   */
  lemma {:induction false} ActiveRowsAppend<T>(rows: seq<Models.Row<T>>, x: Models.Row<T>)
    ensures ActiveRows<T>([]) == []
    ensures ActiveRows(rows + [x]) == ActiveRows(rows) + (if x.isActive then [x] else [])
    decreases |rows|
  {
    if rows == [] {
      assert [] + [x] == [x];
      assert [x][1..] == [];
    } else {
      assert (rows + [x])[0] == rows[0];
      assert (rows + [x])[1..] == rows[1..] + [x];
      ActiveRowsAppend(rows[1..], x);
    }
  }

  /** `get_object`: the position of the active row with that id, if there is one. */
  function FindActive<T>(rows: seq<Models.Row<T>>, id: int, from: nat): (r: Option<nat>)
    requires from <= |rows|
    ensures r.Some? ==> from <= r.value < |rows| && rows[r.value].id == id && rows[r.value].isActive
    ensures r.Some? ==> forall k :: from <= k < r.value ==> !(rows[k].id == id && rows[k].isActive)
    ensures r.None? <==> forall k :: from <= k < |rows| ==> !(rows[k].id == id && rows[k].isActive)
    decreases |rows| - from
  {
    if from == |rows| then None
    else if rows[from].id == id && rows[from].isActive then Some(from)
    else FindActive(rows, id, from + 1)
  }

  function Ids<T>(rows: seq<Models.Row<T>>): (ids: seq<int>)
    ensures |ids| == |rows|
    ensures forall k :: 0 <= k < |rows| ==> ids[k] == rows[k].id
  {
    seq(|rows|, k requires 0 <= k < |rows| => rows[k].id)
  }

  // ----- soft delete -----

  /**
   * `destroy` after the permission check: `get_object` on the active
   * queryset, then `is_active = False` on that row alone.
   */
  function SoftDelete<T>(rows: seq<Models.Row<T>>, id: int): (res: (Response<()>, seq<Models.Row<T>>))
  {
    match FindActive(rows, id, 0)
    case None => (NotFound(NotFoundMessage), rows)
    case Some(k) => (Ok(()), rows[k := rows[k].(isActive := false)])
  }

  /**
   * A delete changes nothing but one flag: no row is removed, ids and data
   * stay, and when it succeeds exactly one active row with that id becomes
   * inactive.
   */
  lemma SoftDeleteClearsOneFlag<T>(rows: seq<Models.Row<T>>, id: int)
    ensures var (r, after) := SoftDelete(rows, id);
      && |after| == |rows|
      && (forall k :: 0 <= k < |rows| ==> after[k].id == rows[k].id && after[k].data == rows[k].data)
      && (r.Ok? <==> exists k :: 0 <= k < |rows| && rows[k].id == id && rows[k].isActive)
      && (!r.Ok? ==> r == NotFound(NotFoundMessage) && after == rows)
      && (r.Ok? ==>
            exists k :: 0 <= k < |rows| && rows[k].id == id && rows[k].isActive && !after[k].isActive
              && (forall j :: 0 <= j < |rows| && j != k ==> after[j] == rows[j]))
  {
    var (r, after) := SoftDelete(rows, id);
    if r.Ok? {
      var k := FindActive(rows, id, 0).value;
      assert rows[k].id == id && rows[k].isActive && !after[k].isActive;
    }
  }

  /** Ids handed out by auto-increment are pairwise distinct. */
  lemma AutoIncrementIdsDistinct<T>(rows: seq<Models.Row<T>>, next: int)
    requires Models.AutoIncrementKeys(Ids(rows), next)
    ensures forall i, j :: 0 <= i < |rows| && 0 <= j < |rows| && i != j ==> rows[i].id != rows[j].id
  {
    forall i, j | 0 <= i < |rows| && 0 <= j < |rows| && i != j
      ensures rows[i].id != rows[j].id
    {
      if i < j {
        assert Ids(rows)[i] < Ids(rows)[j];
      } else {
        assert Ids(rows)[j] < Ids(rows)[i];
      }
    }
  }

  /**
   * Deleting is not idempotent: once an id is deleted, deleting it again
   * answers "not found" and changes nothing.
   */
  lemma SecondDeleteNotFound<T>(rows: seq<Models.Row<T>>, next: int, id: int)
    requires Models.AutoIncrementKeys(Ids(rows), next)
    requires SoftDelete(rows, id).0.Ok?
    ensures var after := SoftDelete(rows, id).1;
      SoftDelete(after, id) == (NotFound(NotFoundMessage), after)
  {
    AutoIncrementIdsDistinct(rows, next);
    var k := FindActive(rows, id, 0).value;
    var after := SoftDelete(rows, id).1;
    forall j | 0 <= j < |after| ensures !(after[j].id == id && after[j].isActive) {
      if j != k {
        assert rows[j].id != rows[k].id;
      }
    }
  }

  /** A deleted row no longer appears in the list, nor can it be retrieved. */
  lemma DeletedRowHidden<T>(rows: seq<Models.Row<T>>, next: int, id: int)
    requires Models.AutoIncrementKeys(Ids(rows), next)
    requires SoftDelete(rows, id).0.Ok?
    ensures var listed := ActiveRows(SoftDelete(rows, id).1);
      forall k :: 0 <= k < |listed| ==> listed[k].id != id
    ensures FindActive(SoftDelete(rows, id).1, id, 0).None?
  {
    SecondDeleteNotFound(rows, next, id);
  }

  /** The first active row with the id is the one `get_object` finds. */
  lemma FindActiveIs<T>(rows: seq<Models.Row<T>>, id: int, m: nat)
    requires m < |rows| && rows[m].id == id && rows[m].isActive
    requires forall k :: 0 <= k < m ==> !(rows[k].id == id && rows[k].isActive)
    ensures FindActive(rows, id, 0) == Some(m)
  {
    var r := FindActive(rows, id, 0);
    assert r.Some?;
    assert !(r.value < m);
  }

  /** A row saved with the next id is the one `get_object` finds under that id. */
  lemma SavedRowFound<T>(rows: seq<Models.Row<T>>, next: int, data: T)
    requires Models.AutoIncrementKeys(Ids(rows), next)
    ensures FindActive(rows + [Models.Row(next, true, data)], next, 0) == Some(|rows|)
  {
    var after := rows + [Models.Row(next, true, data)];
    assert forall k :: 0 <= k < |rows| ==> after[k].id == Ids(rows)[k];
    FindActiveIs(after, next, |rows|);
  }

  /**
   * The table behind one model viewset: the rows with their activity flag
   * and the auto-increment counter.
   */
  class Table<T> {
    const viewSet: ViewSet
    var rows: seq<Models.Row<T>>
    var nextId: int

    ghost predicate Valid()
      reads this
    {
      nextId >= 1 && Models.AutoIncrementKeys(Ids(rows), nextId)
    }

    constructor (v: ViewSet)
      ensures Valid()
      ensures viewSet == v && rows == [] && nextId == 1
    {
      viewSet := v;
      rows := [];
      nextId := 1;
    }

    /** `list`: the active rows, after the permission check. */
    method HandleList(p: Principal) returns (r: Response<seq<Models.Row<T>>>)
      ensures r.Ok? <==> Denial(viewSet, List, p).None?
      ensures r.Ok? ==> r.value == ActiveRows(rows)
      ensures !r.Ok? ==> r == Denied(Denial(viewSet, List, p).value)
    {
      var why := Denial(viewSet, List, p);
      if why.Some? {
        return Denied(why.value);
      }
      return Ok(ActiveRows(rows));
    }

    /** `retrieve`: `get_object` on the active rows, after the permission check. */
    method HandleRetrieve(p: Principal, id: int) returns (r: Response<Models.Row<T>>)
      ensures r.Denied? <==> Denial(viewSet, Retrieve, p).Some?
      ensures r.Denied? ==> r.reason == Denial(viewSet, Retrieve, p).value
      ensures r.Ok? ==> r.value in rows && r.value.id == id && r.value.isActive
      ensures r.NotFound? <==>
        Denial(viewSet, Retrieve, p).None? && forall k :: 0 <= k < |rows| ==> !(rows[k].id == id && rows[k].isActive)
      ensures r.NotFound? ==> r.detail == NotFoundMessage
    {
      var why := Denial(viewSet, Retrieve, p);
      if why.Some? {
        return Denied(why.value);
      }
      var k := FindActive(rows, id, 0);
      if k.None? {
        return NotFound(NotFoundMessage);
      }
      return Ok(rows[k.value]);
    }

    /** `destroy`: the permission check, `get_object`, then `is_active = False` on that row. */
    method HandleDestroy(p: Principal, id: int) returns (r: Response<()>)
      requires Valid()
      modifies this`rows
      ensures Valid()
      ensures Denial(viewSet, Destroy, p).Some? ==>
        r == Denied(Denial(viewSet, Destroy, p).value) && rows == old(rows)
      ensures Denial(viewSet, Destroy, p).None? ==> (r, rows) == SoftDelete(old(rows), id)
    {
      var why := Denial(viewSet, Destroy, p);
      if why.Some? {
        return Denied(why.value);
      }
      var k := FindActive(rows, id, 0);
      if k.None? {
        return NotFound(NotFoundMessage);
      }
      ghost var before := rows;
      rows := rows[k.value := rows[k.value].(isActive := false)];
      assert Ids(rows) == Ids(before);
      return Ok(());
    }

    /** `serializer.save()`: a new active row under the next id. */
    method Save(data: T) returns (row: Models.Row<T>)
      requires Valid()
      modifies this`rows, this`nextId
      ensures Valid()
      ensures row == Models.Row(old(nextId), true, data)
      ensures rows == old(rows) + [row] && nextId == old(nextId) + 1
    {
      row := Models.Row(nextId, true, data);
      Models.AutoIncrementAppend(Ids(rows), nextId);
      assert Ids(rows + [row]) == Ids(rows) + [nextId];
      rows, nextId := rows + [row], nextId + 1;
    }
  }

  // ----- the bulk create of PlanOrganismoSectorialViewSet -----

  type Association = Models.Row<Models.PlanOrganismoSectorial>

  /** The triples the existence query sees: every row, active or not (`objects.filter`, not the queryset). */
  function Triples(rows: seq<Association>): (ts: seq<Triple>)
    ensures |ts| == |rows|
    ensures forall k :: 0 <= k < |rows| ==>
      ts[k] == Triple(rows[k].data.plan, rows[k].data.organismo, rows[k].data.medida)
  {
    seq(|rows|, k requires 0 <= k < |rows| =>
      Triple(rows[k].data.plan, rows[k].data.organismo, rows[k].data.medida))
  }

  /** The rows a successful batch inserts: active, numbered from `next` on, in request order. */
  function NewRows(b: Batch, next: int): (rows: seq<Association>)
    ensures |rows| == |b.ids|
    ensures forall k :: 0 <= k < |rows| ==>
      rows[k] == Models.Row(next + k, true, Models.PlanOrganismoSectorial(b.plan, b.organismo, b.ids[k]))
  {
    seq(|b.ids|, k requires 0 <= k < |b.ids| =>
      Models.Row(next + k, true, Models.PlanOrganismoSectorial(b.plan, b.organismo, b.ids[k])))
  }

  /** The transaction of a batch without repeated ids, stated without the loop. */
  function BatchOutcome(b: Batch, rows: seq<Association>, next: int, store: Store): Outcome<Association>
  {
    match FirstRefusal(Triples(rows), store, b, 0)
    case Some((_, why)) => RefusalOutcome(why)
    case None => Created(NewRows(b, next))
  }

  /**
   * The response to `create`, stated without the loop: the permissions, the
   * presence check, `len` (which fails on anything but a list), the
   * duplicate check, then the first measure refused against the table.
   */
  function CreateOutcome(
    p: Principal, req: BulkRequest, faults: seq<StoreFault>, rows: seq<Association>, next: int, store: Store)
    : Outcome<Association>
  {
    match Denial(PlanOrganismoSectorialViewSet, Create, p)
    case Some(why) => Forbidden(why)
    case None =>
      var errores := MissingErrors(req, IdMedidaKey, MessageList([RequiredMessage]));
      if errores != map[] then MissingFields(errores)
      else if !req.measures.IdList? then Unexpected
      else if HasDuplicates(req.measures.ids) then Duplicates(MessageList([DuplicatesMessage]))
      else BatchOutcome(Batch(req.plan.value, req.organismo.value, req.measures.ids, faults), rows, next, store)
  }

  // ----- properties of create -----

  /**
   * Only an administrator gets past the permissions; an anonymous request
   * is told to authenticate, an authenticated one gets the default refusal.
   */
  lemma CreateRequiresAdministrador(
    p: Principal, req: BulkRequest, faults: seq<StoreFault>, rows: seq<Association>, next: int, store: Store)
    ensures var r := CreateOutcome(p, req, faults, rows, next, store);
      && (r.Forbidden? <==> !IsAdministrador(p))
      && (r.Forbidden? && !p.isAuthenticated ==> r.reason == NotAuthenticated)
      && (r.Forbidden? && p.isAuthenticated ==> r.reason == PermissionDenied(DefaultDeniedMessage))
  {
    EffectivePermissions(PlanOrganismoSectorialViewSet, Create, p);
  }

  /** Every absent field is reported, in one map of one-message lists, before any other check. */
  lemma MissingFieldsReportedTogether(
    p: Principal, req: BulkRequest, faults: seq<StoreFault>, rows: seq<Association>, next: int, store: Store)
    requires IsAdministrador(p)
    requires req.plan.None? || req.organismo.None? || req.measures.Missing?
    ensures var r := CreateOutcome(p, req, faults, rows, next, store);
      && r.MissingFields?
      && (forall key :: key in r.errors <==> Absent(req, IdMedidaKey, key))
      && (forall key :: key in r.errors ==> r.errors[key] == MessageList([RequiredMessage]))
  {
    EffectivePermissions(PlanOrganismoSectorialViewSet, Create, p);
  }

  /**
   * A single integer is not accepted as a list here: `len` raises and the
   * request ends as an unexpected error, with nothing saved.
   */
  lemma ScalarMeasureUnexpected(
    p: Principal, plan: int, organismo: int, n: int, faults: seq<StoreFault>,
    rows: seq<Association>, next: int, store: Store)
    requires IsAdministrador(p)
    ensures CreateOutcome(p, BulkRequest(Some(plan), Some(organismo), Scalar(n)), faults, rows, next, store)
         == Unexpected
  {
    EffectivePermissions(PlanOrganismoSectorialViewSet, Create, p);
  }

  /** A repeated id is refused before the table is consulted. */
  lemma DuplicatesRefusedBeforeLookup(
    p: Principal, plan: int, organismo: int, ids: seq<int>, faults: seq<StoreFault>,
    rows: seq<Association>, next: int, store: Store)
    requires IsAdministrador(p)
    requires !Distinct(ids)
    ensures CreateOutcome(p, BulkRequest(Some(plan), Some(organismo), IdList(ids)), faults, rows, next, store)
         == Duplicates(MessageList([DuplicatesMessage]))
  {
    EffectivePermissions(PlanOrganismoSectorialViewSet, Create, p);
    DistinctIffNoDuplicates(ids);
  }

  /**
   * The transaction succeeds exactly when no measure is refused, and then
   * creates one active row per measure in request order.
   */
  lemma BatchOutcomeCases(b: Batch, rows: seq<Association>, next: int, store: Store)
    ensures var r := BatchOutcome(b, rows, next, store);
      && (r.Created? <==> forall j :: 0 <= j < |b.ids| ==> RefusalAt(Triples(rows), store, b, j).None?)
      && (r.Created? ==> r.rows == NewRows(b, next) && forall k :: 0 <= k < |r.rows| ==> r.rows[k].isActive)
      && (!r.Created? ==>
            exists i :: 0 <= i < |b.ids| && RefusalAt(Triples(rows), store, b, i).Some?
              && RefusalOutcome(RefusalAt(Triples(rows), store, b, i).value) == r
              && forall j :: 0 <= j < i ==> RefusalAt(Triples(rows), store, b, j).None?)
  {
    var f := FirstRefusal(Triples(rows), store, b, 0);
    if f.Some? {
      assert RefusalAt(Triples(rows), store, b, f.value.0) == Some(f.value.1);
    }
  }

  /** Deleting a row, active or not, never changes how a later create turns out. */
  lemma CreateIgnoresDeletion(
    p: Principal, req: BulkRequest, faults: seq<StoreFault>, rows: seq<Association>, next: int, store: Store,
    id: int)
    ensures CreateOutcome(p, req, faults, SoftDelete(rows, id).1, next, store)
         == CreateOutcome(p, req, faults, rows, next, store)
  {
    assert Triples(SoftDelete(rows, id).1) == Triples(rows);
  }

  /**
   * A deleted association still blocks: asking again for a measure whose
   * row with this plan and organism was deleted never succeeds, and when it
   * is the first measure asked for, it is refused as already associated.
   */
  lemma DeletedAssociationStillBlocks(
    p: Principal, plan: int, organismo: int, ids: seq<int>, faults: seq<StoreFault>,
    rows: seq<Association>, next: int, store: Store, k: nat, i: nat)
    requires IsAdministrador(p)
    requires Distinct(ids) && i < |ids|
    requires k < |rows| && !rows[k].isActive
    requires rows[k].data == Models.PlanOrganismoSectorial(plan, organismo, ids[i])
    ensures var r := CreateOutcome(p, BulkRequest(Some(plan), Some(organismo), IdList(ids)), faults, rows, next, store);
      && !r.Created?
      && (i == 0 ==> r == AlreadyAssociated(ids[0], MessageList([AlreadyAssociatedMessage(ids[0])])))
  {
    EffectivePermissions(PlanOrganismoSectorialViewSet, Create, p);
    DistinctIffNoDuplicates(ids);
    var b := Batch(plan, organismo, ids, faults);
    assert Triples(rows)[k] == b.TripleAt(i);
    assert RefusalAt(Triples(rows), store, b, i) == Some(AlreadyLinked(ids[i]));
    BatchOutcomeCases(b, rows, next, store);
    if i == 0 {
      FirstRefusalIs(Triples(rows), store, b, 0, AlreadyLinked(ids[0]));
    }
  }

  /** What the association table may hold: auto-increment ids and references to existing rows. */
  ghost predicate ValidAssociations(rows: seq<Association>, next: int, store: Store)
  {
    && next >= 1
    && Models.AutoIncrementKeys(Ids(rows), next)
    && forall k :: 0 <= k < |rows| ==>
         Models.AssociationRefsExist(rows[k].data, store.plans, store.organisms, store.measures)
  }

  /**
   * `PlanOrganismoSectorialViewSet`: the association table, the ids of the
   * plans, organisms and measures that exist, and the bulk `create`.
   */
  class AssociationViewSet {
    const table: Table<Models.PlanOrganismoSectorial>
    var plans: set<int>
    var organisms: set<int>
    var measures: set<int>

    function Existing(): Store
      reads this
    {
      Store(plans, organisms, measures)
    }

    ghost predicate Valid()
      reads this, table
    {
      && table.viewSet == PlanOrganismoSectorialViewSet
      && ValidAssociations(table.rows, table.nextId, Existing())
    }

    constructor (plans: set<int>, organisms: set<int>, measures: set<int>)
      ensures Valid() && fresh(table)
      ensures table.rows == [] && table.nextId == 1
      ensures this.plans == plans && this.organisms == organisms && this.measures == measures
    {
      table := new Table(PlanOrganismoSectorialViewSet);
      this.plans := plans;
      this.organisms := organisms;
      this.measures := measures;
    }

    /**
     * `create`. All rows of the batch are saved in one transaction; a
     * refusal inside it rolls the table back.
     */
    method HandleCreate(p: Principal, req: BulkRequest, faults: seq<StoreFault>) returns (r: Outcome<Association>)
      requires Valid()
      modifies table
      ensures Valid()
      ensures r == CreateOutcome(p, req, faults, old(table.rows), old(table.nextId), Existing())
      ensures r.Created? ==> table.rows == old(table.rows) + r.rows && table.nextId == old(table.nextId) + |r.rows|
      ensures !r.Created? ==> table.rows == old(table.rows) && table.nextId == old(table.nextId)
    {
      var why := Denial(PlanOrganismoSectorialViewSet, Create, p);
      if why.Some? {
        return Forbidden(why.value);
      }
      var errores := MissingErrors(req, IdMedidaKey, MessageList([RequiredMessage]));
      if errores != map[] {
        return MissingFields(errores);
      }
      if !req.measures.IdList? {
        return Unexpected;
      }
      var ids := req.measures.ids;
      if HasDuplicates(ids) {
        return Duplicates(MessageList([DuplicatesMessage]));
      }
      DistinctIffNoDuplicates(ids);
      r := SaveBatch(Batch(req.plan.value, req.organismo.value, ids, faults));
    }

    /**
     * The `transaction.atomic()` block: for each measure in order, the
     * existence query over all rows, validation and the save; the first
     * refusal restores the table as it was before the batch.
     */
    method SaveBatch(b: Batch) returns (r: Outcome<Association>)
      requires Valid() && Distinct(b.ids)
      modifies table
      ensures Valid()
      ensures r == BatchOutcome(b, old(table.rows), old(table.nextId), Existing())
      ensures r.Created? ==> table.rows == old(table.rows) + r.rows && table.nextId == old(table.nextId) + |r.rows|
      ensures !r.Created? ==> table.rows == old(table.rows) && table.nextId == old(table.nextId)
    {
      var savedRows, savedNext := table.rows, table.nextId;
      ghost var existing := Triples(table.rows);
      var created: seq<Association> := [];
      var i := 0;
      while i < |b.ids|
        invariant 0 <= i <= |b.ids|
        invariant created == NewRows(b, savedNext)[..i]
        invariant table.rows == savedRows + created && table.nextId == savedNext + i
        invariant Triples(table.rows) == existing + b.Pending(i)
        invariant forall j :: 0 <= j < i ==> RefusalAt(existing, Existing(), b, j).None?
        invariant Valid()
      {
        var t := b.TripleAt(i);
        PendingDoNotBlock(existing, b, i);
        var why := CheckRow(Triples(table.rows), Existing(), t, b.FaultAt(i));
        if why.Some? {
          FirstRefusalIs(existing, Existing(), b, i, why.value);
          table.rows, table.nextId := savedRows, savedNext;
          return RefusalOutcome(why.value);
        }
        var row := table.Save(Models.PlanOrganismoSectorial(b.plan, b.organismo, b.ids[i]));
        assert Triples(table.rows) == Triples(savedRows + created) + [t];
        assert b.Pending(i + 1) == b.Pending(i) + [t];
        created := created + [row];
        i := i + 1;
      }
      assert created == NewRows(b, savedNext);
      return Created(created);
    }
  }
}

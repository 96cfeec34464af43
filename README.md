# Plans, measures and sectorial organisms: a Dafny model

This project models the core of a Django REST service. The service records
environmental plans, the measures (`Medida`) grouped by measure type
(`TipoMedida`), the sectorial organisms that report on them, the
associations of plan, organism and measure (`PlanOrganismoSectorial`), and
the reports (`Reporte`) filed against an association. The repository has
two versions of the API:

- the older function views of `django_proyecto/api/views.py`, over the
  schema of `django_proyecto/api/models.py`;
- the model viewsets of `api/views.py`, over the schema of `api/models.py`.

The model covers:

- the entity records of both schemas, with their length limits, unique
  names, defaults, the `estado` choices, the fixed-point `valor_reportado`
  column and the `__str__` forms (modules `Models` and `LegacyModels`);
- the role predicates `IsAdministrador` and `IsOrganismoSectorial` (module
  `Auth`);
- the GET and POST guards of the function views, and the permission lists
  of the viewsets' `get_permissions` (modules `LegacyViews` and `ViewSets`);
- the active-only querysets, `get_object` and the soft-deleting `destroy`
  of the six viewsets, as a `Table` class (module `ViewSets`);
- the bulk association of one plan and one organism with a list of
  measures, in both versions. Each version's entry point is a method of a
  class that owns the association table: `LegacyViews.AssociationTable.Post`
  and `ViewSets.AssociationViewSet.HandleCreate`. Each method is proved
  equal to a loop-free specification function (`PostOutcome`,
  `CreateOutcome`), and the lemmas state the behaviour through those
  functions. The per-measure checks the two versions share are in module
  `Bulk`.

Three behaviours of the code are easy to misread.
The model follows the code:

- A bulk request stops at the first measure that is refused, in request
  order, and the response names only that measure. All earlier rows of the
  batch are rolled back. Errors are not collected over all measures.
- `destroy` looks the row up through the active-only queryset. Deleting an
  id a second time is therefore "not found" (`No se encontró un registro con
  ese ID.`), not a second success (`ViewSets.SecondDeleteNotFound`).
- `get_permissions` builds `(IsAdministrador() or IsOrganismoSectorial())`.
  Permission objects are always truthy, so Python's `or` yields the
  `IsAdministrador()` instance (`ViewSets.PyOr`). A sectorial organism
  outside the administrator group is refused wherever this expression
  appears (`ViewSets.EffectivePermissions`,
  `ViewSets.OrganismoSectorialRefused`).

Failures that come from the database enter as a parameter: `faults[i]` says
whether saving the i-th measure of a batch raises an integrity error, raises
an unexpected error, or succeeds. Which plans, organisms and measures exist
is part of each association class's state.

## Model

| member | source | states |
|---|---|---|
| Auth.GroupExists | api/views.py:24 | the group query is true exactly when the name is among the user's groups |
| Auth.IsAdministrador | api/views.py:19-24 | holds exactly for an authenticated user in group "Administrador" |
| Auth.IsOrganismoSectorial | api/views.py:26-31 | holds exactly for an authenticated user in group "OrganismoSectorial" |
| Text.ParseLabelOfLabel | api/models.py:31-32 | the "id - name" form is read back as exactly that id and that name, whatever the name holds |
| Text.ParseIntOfIntToString | api/models.py:132-133 | the decimal form of an id is read back as that id, negative ids included |
| Text.ParseIntDeterminesIntToString | api/models.py:132-133 | the reader accepts only canonical decimals (no leading zero, no "-0"), so a text that reads as an id is exactly `str(id)` |
| Text.ParseLabelDeterminesLabel | api/models.py:31-32 | a text that reads as an id and a name is exactly `f"{id} - {name}"` |
| Models.Estado.Code | api/models.py:96-108 | each stored choice fits the 20-character column |
| Models.ParseEstado | api/models.py:96-108 | an omitted estado becomes `sin_iniciar`; an accepted value is the code of its choice; a refused value is the code of no choice |
| Models.ParseEstadoOfCode | api/models.py:96-101 | every choice's code is accepted as that choice |
| Models.NewMedida | api/models.py:49-55 | each omitted optional field is "Actualizar", each given field is kept, and the record fits its columns exactly when the input does |
| Models.ValorReportadoCents | api/models.py:147 | an accepted value is stored exactly in hundredths, with at most ten digits; a refused value has no such representation |
| Models.ReporteAccepted | api/models.py:146-147 | a new report is accepted exactly when a stored association has its id and its value fits the decimal column |
| Models.NameAvailable | api/models.py:26 | a name may be taken exactly when the names stay unique with it |
| Models.TipoMedidaAccepted | api/models.py:26-27 | a new measure type is accepted exactly when its name fits and the names of all stored rows stay unique with it |
| Models.OrganismoSectorialAccepted | api/models.py:73-75 | a new organism is accepted exactly when its columns fit and the names of all stored rows stay unique with it |
| Models.PlanAccepted | api/models.py:103-108 | a new plan is accepted exactly when its columns fit and the names of all stored rows stay unique with it |
| Models.AutoIncrementAppend | django_proyecto/api/models.py:58 | the next key keeps the keys strictly increasing and all below the counter, and pairwise distinct; it serves the explicit `AutoField` keys of the older schema and the implicit `id` of the newer one alike |
| Models.TipoMedidaStr | api/models.py:31-32 | the text form reads back as the row's id and `nombre`; by `Text.ParseLabelDeterminesLabel` it is the only text that does, exactly `f"{id} - {name}"` |
| Models.MedidaStr | api/models.py:59-60 | the text form reads back as the row's id and `nombre_corto`; by `Text.ParseLabelDeterminesLabel` it is the only text that does, exactly `f"{id} - {name}"` |
| Models.OrganismoSectorialStr | api/models.py:79-80 | the text form reads back as the row's id and `nombre`; by `Text.ParseLabelDeterminesLabel` it is the only text that does, exactly `f"{id} - {name}"` |
| Models.PlanStr | api/models.py:112-113 | the text form reads back as the row's id and `nombre`; by `Text.ParseLabelDeterminesLabel` it is the only text that does, exactly `f"{id} - {name}"` |
| Models.PlanOrganismoSectorialStr | api/models.py:132-133 | the text form reads back as the row's id; by `Text.ParseIntDeterminesIntToString` it is the only text that does, exactly `str(id)` |
| Models.ReporteStr | api/models.py:152-153 | the text form reads back as the row's id; by `Text.ParseIntDeterminesIntToString` it is the only text that does, exactly `str(id)` |
| LegacyModels.NewMedida | django_proyecto/api/models.py:20-28 | the key and the given fields are kept, each omitted optional field is "Actualizar", and the record fits exactly when the input does |
| LegacyModels.NewPlan | django_proyecto/api/models.py:44-51 | the given fields are kept and an omitted `estado` is true |
| LegacyModels.TipoMedidaAccepted | django_proyecto/api/models.py:13-14 | a new measure type is accepted exactly when its name and description fit and the names stay unique with it |
| LegacyModels.OrganismoSectorialAccepted | django_proyecto/api/models.py:36-38 | a new organism is accepted exactly when its columns fit and the names stay unique with it |
| LegacyModels.PlanAccepted | django_proyecto/api/models.py:46-50 | a new plan is accepted exactly when its columns fit and the names stay unique with it |
| LegacyModels.ReporteAccepted | django_proyecto/api/models.py:70-71 | a new report is accepted exactly when a stored association has its key and its value fits the decimal column |
| LegacyModels.TipoMedidaStr | django_proyecto/api/models.py:17-18 | the text form reads back as `id_tipo_medida` and `nombre`; by `Text.ParseLabelDeterminesLabel` it is the only text that does, exactly `f"{id} - {name}"` |
| LegacyModels.MedidaStr | django_proyecto/api/models.py:31-32 | the text form reads back as `id_media` and `nombre_corto`; by `Text.ParseLabelDeterminesLabel` it is the only text that does, exactly `f"{id} - {name}"` |
| LegacyModels.OrganismoSectorialStr | django_proyecto/api/models.py:41-42 | the text form reads back as `id_organismo_sectorial` and `nombre`; by `Text.ParseLabelDeterminesLabel` it is the only text that does, exactly `f"{id} - {name}"` |
| LegacyModels.PlanStr | django_proyecto/api/models.py:54-55 | the text form reads back as `id_plan` and `nombre`; by `Text.ParseLabelDeterminesLabel` it is the only text that does, exactly `f"{id} - {name}"` |
| LegacyModels.PlanOrganismoSectorialStr | django_proyecto/api/models.py:64-65 | the text form reads back as `id_plan_organismo_sectorial`; by `Text.ParseIntDeterminesIntToString` it is the only text that does, exactly `str(id)` |
| LegacyModels.ReporteStr | django_proyecto/api/models.py:75-76 | the text form reads back as `id_reporte`; by `Text.ParseIntDeterminesIntToString` it is the only text that does, exactly `str(id)` |
| Bulk.MissingErrors | django_proyecto/api/views.py:398-408 | the error map has a key for each absent field and no other, each with the same required-field value, and is empty exactly when all three are present |
| Bulk.DistinctIffNoDuplicates | django_proyecto/api/views.py:416-417 | comparing `len` with the size of the set detects a repeated id exactly when one exists |
| Bulk.FieldErrors | django_proyecto/api/views.py:435-441 | the serializer names a field exactly when its id names no existing row |
| Bulk.CheckRow | django_proyecto/api/views.py:423-443 | one measure passes exactly when its triple is not stored, all three ids exist and the save succeeds; a stored triple is refused as already associated |
| Bulk.FirstRefusal | django_proyecto/api/views.py:419-443 | finds the first refused measure in request order, with the reason; none is found exactly when every measure passes |
| Bulk.PendingDoNotBlock | django_proyecto/api/views.py:423-428 | in a batch without repeated ids, the rows saved earlier in the batch never make a later measure "already associated" |
| Bulk.FirstRefusalIs | django_proyecto/api/views.py:423-433 | a refused measure preceded only by passing ones is the batch's first refusal |
| LegacyViews.GetGuard | django_proyecto/api/views.py:382-385 | the three-way `or` of the GET guard admits exactly the authenticated users |
| LegacyViews.PostGuard | django_proyecto/api/views.py:531-533 | POST admits administrators; on `reporte` it also admits sectorial organisms |
| LegacyViews.HandleGet | django_proyecto/api/views.py:382-387 | an authenticated user gets every row, anyone else the fixed 403 message |
| LegacyViews.AppendKeepsValid | django_proyecto/api/views.py:435-443 | saving a valid row under the next key keeps the table auto-increment and its references existing |
| LegacyViews.PostRequiresAdministrador | django_proyecto/api/views.py:388-391 | a POST is refused exactly when the user is not an administrator, always with the fixed message |
| LegacyViews.MissingFieldsReportedTogether | django_proyecto/api/views.py:398-408 | any absent field yields one map naming every absent field, with `medidas` as the measures key |
| LegacyViews.ScalarIsOneElementList | django_proyecto/api/views.py:410-412 | an integer measure is handled exactly as the list holding it |
| LegacyViews.OtherShapeRefused | django_proyecto/api/views.py:413-414 | a measures value that is neither integer nor list gets the fixed shape message |
| LegacyViews.DuplicatesRefusedBeforeLookup | django_proyecto/api/views.py:416-417 | a list with a repeated id is refused as duplicated whatever the table holds |
| LegacyViews.BatchOutcomeCases | django_proyecto/api/views.py:419-449 | the batch succeeds exactly when no measure is refused, creating one row per measure in order with `cantidad` equal to the list's length; a failure names the first refused measure |
| LegacyViews.EmptyListCreatesNothing | django_proyecto/api/views.py:416-449 | an empty list succeeds with nothing created |
| LegacyViews.RepeatedRequestRefused | django_proyecto/api/views.py:423-433 | repeating a successful non-empty request is refused at its first measure, whatever happens to the saves the second time |
| LegacyViews.AssociationTable.Post | django_proyecto/api/views.py:388-462 | the response is the specification's for the table as it was; success appends exactly the created rows, any failure leaves the table and counter unchanged |
| LegacyViews.AssociationTable.SaveBatch | django_proyecto/api/views.py:419-462 | the loop over the measures gives the loop-free outcome, appends the rows on success and rolls back on the first refusal |
| ViewSets.PyOr | api/views.py:109 | `IsAdministrador() or IsOrganismoSectorial()` is the `IsAdministrador()` instance |
| ViewSets.FirstRefusing | api/views.py:71-74 | a permission list admits the request exactly when every permission in it holds |
| ViewSets.EffectivePermissions | api/views.py:105-110 | an action is allowed exactly when the user is authenticated and, for create, destroy and the list of every viewset but `TipoMedida`, in the administrator group |
| ViewSets.OrganismoSectorialRefused | api/views.py:444-449 | every authenticated user in the sectorial-organism group and not in the administrator group gets the default refusal for the list, and on reports for the create too |
| ViewSets.ActiveRows | api/views.py:68 | every row of the queryset is an active row of the table, and every active row is in it |
| ViewSets.ActiveRowsAppend | api/views.py:68 | the queryset is the order-preserving filter: an empty table gives nothing, and one more row is added at the end exactly when it is active |
| ViewSets.FindActive | api/views.py:76-80 | finds the first active row with the id, and finds none exactly when no active row has it |
| ViewSets.SoftDeleteClearsOneFlag | api/views.py:89-93 | a delete removes no row and changes no id or field; it succeeds exactly when an active row has the id, and then only that row turns inactive; otherwise it answers the fixed not-found message |
| ViewSets.SecondDeleteNotFound | api/views.py:76-93 | deleting the same id again answers not found and changes nothing |
| ViewSets.DeletedRowHidden | api/views.py:68-93 | a deleted row is neither listed nor retrievable |
| ViewSets.SavedRowFound | api/views.py:82-86 | a row saved under the next id is the one `get_object` finds under that id |
| ViewSets.Table.HandleList | api/views.py:67-74 | after the permission check, the response is the active rows |
| ViewSets.Table.HandleRetrieve | api/views.py:76-80 | after the permission check, the response is the active row with the id, or the fixed not-found message exactly when there is none |
| ViewSets.Table.HandleDestroy | api/views.py:89-93 | after the permission check, the table is the soft delete of the old one; a refused request changes nothing |
| ViewSets.Table.Save | api/views.py:82-86 | the new row is active, takes the next id, and is appended |
| ViewSets.CreateRequiresAdministrador | api/views.py:317-319 | create is refused exactly for non-administrators: anonymous users as not authenticated, others with the default refusal |
| ViewSets.MissingFieldsReportedTogether | api/views.py:360-370 | any absent field yields one map naming every absent field, with `id_medida` as the measures key and one-message lists as values |
| ViewSets.ScalarMeasureUnexpected | api/views.py:372-373 | an integer `id_medida` ends as an unexpected error, because `len` fails on it |
| ViewSets.DuplicatesRefusedBeforeLookup | api/views.py:372-374 | a list with a repeated id is refused as duplicated whatever the table holds |
| ViewSets.BatchOutcomeCases | api/views.py:376-405 | the batch succeeds exactly when no measure is refused, creating one active row per measure in order; a failure is the response of the first refused measure |
| ViewSets.CreateIgnoresDeletion | api/views.py:379-384 | the existence query reads every row, so deleting any row never changes a later create |
| ViewSets.DeletedAssociationStillBlocks | api/views.py:379-389 | a request naming any measure whose association with the plan and organism was deleted never succeeds; as the first measure it is refused as already associated |
| ViewSets.AssociationViewSet.HandleCreate | api/views.py:354-418 | the response is the specification's for the table as it was; success appends exactly the created rows, any failure leaves the table and counter unchanged |
| ViewSets.AssociationViewSet.SaveBatch | api/views.py:376-418 | the loop over the measures gives the loop-free outcome, appends the rows on success and rolls back on the first refusal |

## Left out

- HTTP, routing, content negotiation, the HTML views, the admin site and the OpenAPI schema decorations are not modelled. Responses are modelled as outcome values: status codes, and the `mensaje` and `datos` keys, are implied by the variant.
- The serializers other than the association one are not modelled as code. Their effect is stated as predicates on the records: length limits, unique names, choices, defaults and the decimal column. `api/serializers.py` is not part of this model.
- Of the five viewsets other than `PlanOrganismoSectorialViewSet`, only create is modelled, as `Table.Save`, with no validation or permission step of its own; the `Accepted` functions state the column checks separately. Update and partial update are not modelled.
- `is_active` is not declared in `api/models.py`, although the querysets filter on it. The model gives every row the flag and makes new rows active.
- The texts of exceptions (`str(e)`) in the integrity and unexpected responses are not modelled.
- Bulk.FieldErrors: models the serializer's foreign-key check by membership of the ids in the existing rows. Whether the serializer's querysets skip inactive rows is not decided here.
- ViewSets.CreateOutcome: treats every non-list `id_medida` as an unexpected error. That is right for integers, booleans and other values without `len`. A string or an object would be measured and iterated by Python; such values are not modelled.
- LegacyViews.ScalarIsOneElementList: covers integers only. A boolean `medidas` is an `int` in Python and would become `[True]`; booleans are not modelled. Plan and organism ids are modelled as integers, so other JSON values for them are left out.
- Rollback restores the table and the id counter together. A real database may not reuse the ids a rolled-back transaction consumed.
- Concurrency between requests and database races are not modelled: each request runs against one table state.
- Timestamps (`created_at`, `updated_at`) and the current time are not modelled. The modelled files hold no check between `fecha_inicio` and `fecha_termino` or on report dates; whether the serializers add one is not known here.
- Models.NewMedida: accepts empty strings, and so do the `Fits` predicates and the `Accepted` functions of both schemas. A serializer field generated from these columns would refuse a blank value; the serializers are not part of this model.
- Bulk.BulkRequest: the elements of the measure list are integers. Strings, nulls and nested lists are not modelled. With them the view behaves otherwise: `["1", 1]` passes the duplicate check and is then refused at its second element as already associated; a nested list makes `set` raise, outside the `try` in the older view and as an unexpected error in the viewset; a null is refused by the serializer as an invalid reference. Bulk.PendingDoNotBlock holds for integer lists only.
- The migrations that insert fixed users and groups are not modelled.
- Project settings are not modelled. The framework's default permission and authentication classes are assumed to admit every request, so only the checks written in the views decide access; under a default `IsAuthenticated` an anonymous request to a function view would get 401 before the view runs. Denial texts of the framework are its English defaults (`ViewSets.DefaultDeniedMessage`); another `LANGUAGE_CODE` would translate them.

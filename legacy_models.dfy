/**
 * The six entities of django_proyecto/api/models.py, the older schema: every
 * entity declares its own auto-increment primary key, `Plan.estado` is a
 * boolean, and there is no activity flag. Length limits, uniqueness, the
 * decimal column and dates are those of the newer schema (module Models).
 */
module LegacyModels {
  import opened Wrappers
  import Text
  import Models

  datatype TipoMedida = TipoMedida(idTipoMedida: int, nombre: string, descripcion: string)

  datatype Medida = Medida(
    idMedia: int,
    idTipoMedida: int,
    nombreCorto: string,
    indicador: string,
    formaCalculo: string,
    frecuenciaReporte: string,
    mediosVerificacion: string,
    tipoRegulatoria: string)

  datatype OrganismoSectorial = OrganismoSectorial(
    idOrganismoSectorial: int, nombre: string, tipo: string, contacto: string)

  datatype Plan = Plan(
    idPlan: int,
    nombre: string,
    descripcion: string,
    fechaInicio: Models.Date,
    fechaTermino: Models.Date,
    responsable: string,
    estado: bool)

  datatype PlanOrganismoSectorial = PlanOrganismoSectorial(
    idPlanOrganismoSectorial: int, idPlan: int, idOrganismoSectorial: int, idMedia: int)

  /** `valorReportado` is the decimal value in hundredths. */
  datatype Reporte = Reporte(
    idReporte: int, idPlanOrganismoSectorial: int, valorReportado: int, fechaReporte: Models.Date)

  // ----- maximum lengths (here `TipoMedida.descripcion` is limited too) -----

  predicate TipoMedidaFits(t: TipoMedida)
  {
    |t.nombre| <= Models.NameMaxLength && |t.descripcion| <= Models.NameMaxLength
  }

  predicate MedidaFits(m: Medida)
  {
    && |m.nombreCorto| <= Models.TextMaxLength
    && |m.indicador| <= Models.TextMaxLength
    && |m.formaCalculo| <= Models.TextMaxLength
    && |m.frecuenciaReporte| <= Models.TextMaxLength
    && |m.mediosVerificacion| <= Models.TextMaxLength
    && |m.tipoRegulatoria| <= Models.TextMaxLength
  }

  predicate OrganismoSectorialFits(o: OrganismoSectorial)
  {
    && |o.nombre| <= Models.NameMaxLength
    && |o.tipo| <= Models.NameMaxLength
    && |o.contacto| <= Models.NameMaxLength
  }

  predicate PlanFits(p: Plan)
  {
    && |p.nombre| <= Models.NameMaxLength
    && |p.descripcion| <= Models.NameMaxLength
    && |p.responsable| <= Models.NameMaxLength
  }

  // ----- defaults -----

  /** Builds a `Medida` with key `idMedia`, filling omitted optional fields with "Actualizar". */
  function NewMedida(idMedia: int, input: Models.MedidaInput): (m: Medida)
    ensures m.idMedia == idMedia && m.idTipoMedida == input.tipoMedida
    ensures input.nombreCorto.None? ==> m.nombreCorto == Models.Placeholder
    ensures input.mediosVerificacion.None? ==> m.mediosVerificacion == Models.Placeholder
    ensures input.tipoRegulatoria.None? ==> m.tipoRegulatoria == Models.Placeholder
    ensures input.nombreCorto.Some? ==> m.nombreCorto == input.nombreCorto.value
    ensures input.mediosVerificacion.Some? ==> m.mediosVerificacion == input.mediosVerificacion.value
    ensures input.tipoRegulatoria.Some? ==> m.tipoRegulatoria == input.tipoRegulatoria.value
    ensures m.indicador == input.indicador && m.formaCalculo == input.formaCalculo
    ensures m.frecuenciaReporte == input.frecuenciaReporte
    ensures Models.MedidaInputFits(input) <==> MedidaFits(m)
  {
    Medida(
      idMedia,
      input.tipoMedida,
      input.nombreCorto.GetOr(Models.Placeholder),
      input.indicador,
      input.formaCalculo,
      input.frecuenciaReporte,
      input.mediosVerificacion.GetOr(Models.Placeholder),
      input.tipoRegulatoria.GetOr(Models.Placeholder))
  }

  /** Builds a `Plan` with key `idPlan`; an omitted `estado` is `True`. */
  function NewPlan(
    idPlan: int, nombre: string, descripcion: string, fechaInicio: Models.Date,
    fechaTermino: Models.Date, responsable: string, estado: Option<bool>): (p: Plan)
    ensures p.idPlan == idPlan && p.nombre == nombre && p.descripcion == descripcion
    ensures p.fechaInicio == fechaInicio && p.fechaTermino == fechaTermino
    ensures p.responsable == responsable
    ensures estado.None? ==> p.estado
    ensures estado.Some? ==> p.estado == estado.value
  {
    Plan(idPlan, nombre, descripcion, fechaInicio, fechaTermino, responsable, estado.GetOr(true))
  }

  // ----- unique names -----

  function TipoMedidaNames(rows: seq<TipoMedida>): (names: seq<string>)
    ensures |names| == |rows|
    ensures forall i :: 0 <= i < |rows| ==> names[i] == rows[i].nombre
  {
    seq(|rows|, i requires 0 <= i < |rows| => rows[i].nombre)
  }

  function OrganismoSectorialNames(rows: seq<OrganismoSectorial>): (names: seq<string>)
    ensures |names| == |rows|
    ensures forall i :: 0 <= i < |rows| ==> names[i] == rows[i].nombre
  {
    seq(|rows|, i requires 0 <= i < |rows| => rows[i].nombre)
  }

  function PlanNames(rows: seq<Plan>): (names: seq<string>)
    ensures |names| == |rows|
    ensures forall i :: 0 <= i < |rows| ==> names[i] == rows[i].nombre
  {
    seq(|rows|, i requires 0 <= i < |rows| => rows[i].nombre)
  }

  /**
   * The checks on saving a new `TipoMedida`: its columns fit and its name is
   * taken by no stored row; exactly then the names stay unique.
   */
  function TipoMedidaAccepted(rows: seq<TipoMedida>, row: TipoMedida): (ok: bool)
    requires Models.UniqueNames(TipoMedidaNames(rows))
    ensures ok <==> TipoMedidaFits(row) && Models.UniqueNames(TipoMedidaNames(rows + [row]))
  {
    assert TipoMedidaNames(rows + [row]) == TipoMedidaNames(rows) + [row.nombre];
    TipoMedidaFits(row) && Models.NameAvailable(TipoMedidaNames(rows), row.nombre)
  }

  /**
   * The checks on saving a new `OrganismoSectorial`: its columns fit and its name is
   * taken by no stored row; exactly then the names stay unique.
   */
  function OrganismoSectorialAccepted(rows: seq<OrganismoSectorial>, row: OrganismoSectorial): (ok: bool)
    requires Models.UniqueNames(OrganismoSectorialNames(rows))
    ensures ok <==> OrganismoSectorialFits(row) && Models.UniqueNames(OrganismoSectorialNames(rows + [row]))
  {
    assert OrganismoSectorialNames(rows + [row]) == OrganismoSectorialNames(rows) + [row.nombre];
    OrganismoSectorialFits(row) && Models.NameAvailable(OrganismoSectorialNames(rows), row.nombre)
  }

  /**
   * The checks on saving a new `Plan`: its columns fit and its name is
   * taken by no stored row; exactly then the names stay unique.
   */
  function PlanAccepted(rows: seq<Plan>, row: Plan): (ok: bool)
    requires Models.UniqueNames(PlanNames(rows))
    ensures ok <==> PlanFits(row) && Models.UniqueNames(PlanNames(rows + [row]))
  {
    assert PlanNames(rows + [row]) == PlanNames(rows) + [row.nombre];
    PlanFits(row) && Models.NameAvailable(PlanNames(rows), row.nombre)
  }

  // ----- references -----

  /** Whether some stored association has the key. */
  function HasAssociation(rows: seq<PlanOrganismoSectorial>, id: int): (b: bool)
    ensures b <==> exists k :: 0 <= k < |rows| && rows[k].idPlanOrganismoSectorial == id
    decreases |rows|
  {
    if rows == [] then false
    else rows[0].idPlanOrganismoSectorial == id || HasAssociation(rows[1..], id)
  }

  /**
   * The checks on saving a new `Reporte`: its association exists and the
   * reported value fits the decimal column.
   */
  function ReporteAccepted(associations: seq<PlanOrganismoSectorial>, r: Reporte): (ok: bool)
    ensures ok <==>
      && (exists k :: 0 <= k < |associations| && associations[k].idPlanOrganismoSectorial == r.idPlanOrganismoSectorial)
      && Models.CentsInRange(r.valorReportado)
  {
    HasAssociation(associations, r.idPlanOrganismoSectorial) && Models.CentsInRange(r.valorReportado)
  }

  // ----- string forms -----

  /** `TipoMedida.__str__`: "id_tipo_medida - nombre". */
  function TipoMedidaStr(t: TipoMedida): (s: string)
    ensures Text.ParseLabel(s) == Some((t.idTipoMedida, t.nombre))
  {
    Text.ParseLabelOfLabel(t.idTipoMedida, t.nombre);
    Text.Label(t.idTipoMedida, t.nombre)
  }

  /** `Medida.__str__`: "id_media - nombre_corto". */
  function MedidaStr(m: Medida): (s: string)
    ensures Text.ParseLabel(s) == Some((m.idMedia, m.nombreCorto))
  {
    Text.ParseLabelOfLabel(m.idMedia, m.nombreCorto);
    Text.Label(m.idMedia, m.nombreCorto)
  }

  /** `OrganismoSectorial.__str__`: "id_organismo_sectorial - nombre". */
  function OrganismoSectorialStr(o: OrganismoSectorial): (s: string)
    ensures Text.ParseLabel(s) == Some((o.idOrganismoSectorial, o.nombre))
  {
    Text.ParseLabelOfLabel(o.idOrganismoSectorial, o.nombre);
    Text.Label(o.idOrganismoSectorial, o.nombre)
  }

  /** `Plan.__str__`: "id_plan - nombre". */
  function PlanStr(p: Plan): (s: string)
    ensures Text.ParseLabel(s) == Some((p.idPlan, p.nombre))
  {
    Text.ParseLabelOfLabel(p.idPlan, p.nombre);
    Text.Label(p.idPlan, p.nombre)
  }

  /** `PlanOrganismoSectorial.__str__`: the key alone. */
  function PlanOrganismoSectorialStr(a: PlanOrganismoSectorial): (s: string)
    ensures Text.ParseInt(s) == Some(a.idPlanOrganismoSectorial)
  {
    Text.ParseIntOfIntToString(a.idPlanOrganismoSectorial);
    Text.IntToString(a.idPlanOrganismoSectorial)
  }

  /** `Reporte.__str__`: the key alone. */
  function ReporteStr(r: Reporte): (s: string)
    ensures Text.ParseInt(s) == Some(r.idReporte)
  {
    Text.ParseIntOfIntToString(r.idReporte);
    Text.IntToString(r.idReporte)
  }
}

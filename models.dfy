/**
 * The six entities of api/models.py as records, with the constraints their
 * field declarations impose: unique names, maximum lengths, defaults, the
 * `estado` choices and the fixed-point range of `valor_reportado`.
 * Timestamps (`created_at`, `updated_at`) are left out.
 */
module Models {
  import opened Wrappers
  import Text

  /** `CharField(max_length=100)` on names and short texts. */
  const NameMaxLength := 100
  /** `CharField(max_length=300)` on the texts of a `Medida`. */
  const TextMaxLength := 300
  /** `CharField(max_length=20)` on `Plan.estado`. */
  const EstadoMaxLength := 20
  /** The default of `nombre_corto`, `medios_verificacion` and `tipo_regulatoria`. */
  const Placeholder := "Actualizar"
  /** `DecimalField(max_digits=10, decimal_places=2)` holds fewer than 10^10 hundredths. */
  const CentsBound := 10_000_000_000

  /**
   * A stored row: the implicit auto-increment `id`, the `is_active` flag the
   * views rely on, and the declared fields.
   */
  datatype Row<+T> = Row(id: int, isActive: bool, data: T)

  datatype Date = Date(year: int, month: int, day: int)

  datatype TipoMedida = TipoMedida(nombre: string, descripcion: string)

  datatype Medida = Medida(
    tipoMedida: int,
    nombreCorto: string,
    indicador: string,
    formaCalculo: string,
    frecuenciaReporte: string,
    mediosVerificacion: string,
    tipoRegulatoria: string)

  datatype OrganismoSectorial = OrganismoSectorial(nombre: string, tipo: string, contacto: string)

  /** `Plan.ESTADO_CHOICES`. */
  datatype Estado = SinIniciar | EnProgreso | Finalizado | Atrasado {

    /** The stored value of the choice. */
    function Code(): (s: string)
      ensures |s| <= EstadoMaxLength
    {
      match this
      case SinIniciar => "sin_iniciar"
      case EnProgreso => "en_progreso"
      case Finalizado => "finalizado"
      case Atrasado => "atrasado"
    }
  }

  datatype Plan = Plan(
    nombre: string,
    descripcion: string,
    fechaInicio: Date,
    fechaTermino: Date,
    responsable: string,
    estado: Estado)

  /** One (plan, organism, measure) association; `id_media` is the measure. */
  datatype PlanOrganismoSectorial = PlanOrganismoSectorial(plan: int, organismo: int, medida: int)

  /** A report; `valorReportado` is the decimal value in hundredths. */
  datatype Reporte = Reporte(planOrganismoSectorial: int, valorReportado: int, fechaReporte: Date)

  // ----- estado -----

  /**
   * Reads a submitted `estado`: an omitted value takes the default
   * `sin_iniciar`; a given value must be one of the four codes.
   */
  function ParseEstado(code: Option<string>): (r: Option<Estado>)
    ensures code.None? ==> r == Some(SinIniciar)
    ensures code.Some? && r.Some? ==> r.value.Code() == code.value
    ensures code.Some? && r.None? ==> forall e: Estado :: e.Code() != code.value
  {
    match code
    case None => Some(SinIniciar)
    case Some(c) =>
      if c == "sin_iniciar" then Some(SinIniciar)
      else if c == "en_progreso" then Some(EnProgreso)
      else if c == "finalizado" then Some(Finalizado)
      else if c == "atrasado" then Some(Atrasado)
      else None
  }

  lemma ParseEstadoOfCode(e: Estado)
    ensures ParseEstado(Some(e.Code())) == Some(e)
  {
  }

  // ----- maximum lengths -----

  predicate TipoMedidaFits(t: TipoMedida)
  {
    |t.nombre| <= NameMaxLength
  }

  predicate MedidaFits(m: Medida)
  {
    && |m.nombreCorto| <= TextMaxLength
    && |m.indicador| <= TextMaxLength
    && |m.formaCalculo| <= TextMaxLength
    && |m.frecuenciaReporte| <= TextMaxLength
    && |m.mediosVerificacion| <= TextMaxLength
    && |m.tipoRegulatoria| <= TextMaxLength
  }

  predicate OrganismoSectorialFits(o: OrganismoSectorial)
  {
    |o.nombre| <= NameMaxLength && |o.tipo| <= NameMaxLength && |o.contacto| <= NameMaxLength
  }

  predicate PlanFits(p: Plan)
  {
    && |p.nombre| <= NameMaxLength
    && |p.descripcion| <= NameMaxLength
    && |p.responsable| <= NameMaxLength
    && |p.estado.Code()| <= EstadoMaxLength
  }

  // ----- defaults -----

  /** The fields of a `Medida` as submitted; the three optional ones may be omitted. */
  datatype MedidaInput = MedidaInput(
    tipoMedida: int,
    nombreCorto: Option<string>,
    indicador: string,
    formaCalculo: string,
    frecuenciaReporte: string,
    mediosVerificacion: Option<string>,
    tipoRegulatoria: Option<string>)

  predicate OptionalFits(s: Option<string>)
  {
    s.Some? ==> |s.value| <= TextMaxLength
  }

  predicate MedidaInputFits(input: MedidaInput)
  {
    && OptionalFits(input.nombreCorto)
    && |input.indicador| <= TextMaxLength
    && |input.formaCalculo| <= TextMaxLength
    && |input.frecuenciaReporte| <= TextMaxLength
    && OptionalFits(input.mediosVerificacion)
    && OptionalFits(input.tipoRegulatoria)
  }

  /** Builds a `Medida`, filling each omitted optional field with "Actualizar". */
  function NewMedida(input: MedidaInput): (m: Medida)
    ensures input.nombreCorto.None? ==> m.nombreCorto == Placeholder
    ensures input.mediosVerificacion.None? ==> m.mediosVerificacion == Placeholder
    ensures input.tipoRegulatoria.None? ==> m.tipoRegulatoria == Placeholder
    ensures input.nombreCorto.Some? ==> m.nombreCorto == input.nombreCorto.value
    ensures input.mediosVerificacion.Some? ==> m.mediosVerificacion == input.mediosVerificacion.value
    ensures input.tipoRegulatoria.Some? ==> m.tipoRegulatoria == input.tipoRegulatoria.value
    ensures m.tipoMedida == input.tipoMedida && m.indicador == input.indicador
    ensures m.formaCalculo == input.formaCalculo && m.frecuenciaReporte == input.frecuenciaReporte
    ensures MedidaInputFits(input) <==> MedidaFits(m)
  {
    Medida(
      input.tipoMedida,
      input.nombreCorto.GetOr(Placeholder),
      input.indicador,
      input.formaCalculo,
      input.frecuenciaReporte,
      input.mediosVerificacion.GetOr(Placeholder),
      input.tipoRegulatoria.GetOr(Placeholder))
  }

  // ----- valor_reportado -----

  predicate CentsInRange(c: int)
  {
    -CentsBound < c < CentsBound
  }

  /**
   * Accepts a submitted decimal when it has at most two decimal places and at
   * most ten digits, returning it in hundredths. A rejected value has no
   * representation in the column at all.
   */
  function ValorReportadoCents(v: real): (r: Option<int>)
    ensures r.Some? ==> CentsInRange(r.value) && r.value as real / 100.0 == v
    ensures r.Some? ==> -100_000_000.0 < v < 100_000_000.0
    ensures r.None? ==> forall c: int :: CentsInRange(c) ==> c as real / 100.0 != v
  {
    var c := (v * 100.0).Floor;
    if c as real == v * 100.0 && CentsInRange(c) then Some(c) else None
  }

  // ----- unique names -----

  predicate UniqueNames(names: seq<string>)
  {
    forall i, j :: 0 <= i < j < |names| ==> names[i] != names[j]
  }

  /**
   * The uniqueness check on `nombre`: a new row may take a name exactly when
   * the names stay unique with it added.
   */
  function NameAvailable(names: seq<string>, nombre: string): (ok: bool)
    requires UniqueNames(names)
    ensures ok <==> UniqueNames(names + [nombre])
  {
    if nombre in names then
      var i :| 0 <= i < |names| && names[i] == nombre;
      assert (names + [nombre])[i] == (names + [nombre])[|names|];
      false
    else
      true
  }

  function TipoMedidaNames(rows: seq<Row<TipoMedida>>): (names: seq<string>)
    ensures |names| == |rows|
    ensures forall i :: 0 <= i < |rows| ==> names[i] == rows[i].data.nombre
  {
    seq(|rows|, i requires 0 <= i < |rows| => rows[i].data.nombre)
  }

  function OrganismoSectorialNames(rows: seq<Row<OrganismoSectorial>>): (names: seq<string>)
    ensures |names| == |rows|
    ensures forall i :: 0 <= i < |rows| ==> names[i] == rows[i].data.nombre
  {
    seq(|rows|, i requires 0 <= i < |rows| => rows[i].data.nombre)
  }

  function PlanNames(rows: seq<Row<Plan>>): (names: seq<string>)
    ensures |names| == |rows|
    ensures forall i :: 0 <= i < |rows| ==> names[i] == rows[i].data.nombre
  {
    seq(|rows|, i requires 0 <= i < |rows| => rows[i].data.nombre)
  }

  /**
   * The checks on saving a new `TipoMedida`: its columns fit and its name is
   * taken by no stored row; exactly then the names stay unique.
   */
  function TipoMedidaAccepted(rows: seq<Row<TipoMedida>>, row: Row<TipoMedida>): (ok: bool)
    requires UniqueNames(TipoMedidaNames(rows))
    ensures ok <==> TipoMedidaFits(row.data) && UniqueNames(TipoMedidaNames(rows + [row]))
  {
    assert TipoMedidaNames(rows + [row]) == TipoMedidaNames(rows) + [row.data.nombre];
    TipoMedidaFits(row.data) && NameAvailable(TipoMedidaNames(rows), row.data.nombre)
  }

  /**
   * The checks on saving a new `OrganismoSectorial`: its columns fit and its name is
   * taken by no stored row; exactly then the names stay unique.
   */
  function OrganismoSectorialAccepted(rows: seq<Row<OrganismoSectorial>>, row: Row<OrganismoSectorial>): (ok: bool)
    requires UniqueNames(OrganismoSectorialNames(rows))
    ensures ok <==> OrganismoSectorialFits(row.data) && UniqueNames(OrganismoSectorialNames(rows + [row]))
  {
    assert OrganismoSectorialNames(rows + [row]) == OrganismoSectorialNames(rows) + [row.data.nombre];
    OrganismoSectorialFits(row.data) && NameAvailable(OrganismoSectorialNames(rows), row.data.nombre)
  }

  /**
   * The checks on saving a new `Plan`: its columns fit and its name is
   * taken by no stored row; exactly then the names stay unique.
   */
  function PlanAccepted(rows: seq<Row<Plan>>, row: Row<Plan>): (ok: bool)
    requires UniqueNames(PlanNames(rows))
    ensures ok <==> PlanFits(row.data) && UniqueNames(PlanNames(rows + [row]))
  {
    assert PlanNames(rows + [row]) == PlanNames(rows) + [row.data.nombre];
    PlanFits(row.data) && NameAvailable(PlanNames(rows), row.data.nombre)
  }

  // ----- auto-increment keys -----

  /** Keys handed out by an auto-increment column are strictly increasing in insertion order. */
  predicate AutoIncrementKeys(keys: seq<int>, next: int)
  {
    && (forall i, j :: 0 <= i < j < |keys| ==> keys[i] < keys[j])
    && (forall i :: 0 <= i < |keys| ==> 1 <= keys[i] < next)
  }

  /** Appending the next key keeps the keys auto-increment and leaves them pairwise distinct. */
  lemma AutoIncrementAppend(keys: seq<int>, next: int)
    requires AutoIncrementKeys(keys, next) && next >= 1
    ensures AutoIncrementKeys(keys + [next], next + 1)
    ensures forall i, j :: 0 <= i < j < |keys| + 1 ==> (keys + [next])[i] != (keys + [next])[j]
  {
  }

  // ----- references -----

  /** Every association row names an existing plan, organism and measure. */
  predicate AssociationRefsExist(a: PlanOrganismoSectorial, plans: set<int>, organisms: set<int>, measures: set<int>)
  {
    a.plan in plans && a.organismo in organisms && a.medida in measures
  }

  /** Whether some stored row, active or not, has the id: the target of a foreign key. */
  function HasRowWithId<T>(rows: seq<Row<T>>, id: int): (b: bool)
    ensures b <==> exists k :: 0 <= k < |rows| && rows[k].id == id
    decreases |rows|
  {
    if rows == [] then false
    else rows[0].id == id || HasRowWithId(rows[1..], id)
  }

  /**
   * The checks on saving a new `Reporte`: its association exists and the
   * reported value fits the decimal column.
   */
  function ReporteAccepted(associations: seq<Row<PlanOrganismoSectorial>>, r: Reporte): (ok: bool)
    ensures ok <==>
      && (exists k :: 0 <= k < |associations| && associations[k].id == r.planOrganismoSectorial)
      && CentsInRange(r.valorReportado)
  {
    HasRowWithId(associations, r.planOrganismoSectorial) && CentsInRange(r.valorReportado)
  }

  // ----- string forms -----

  /** `TipoMedida.__str__`: "id - nombre". */
  function TipoMedidaStr(r: Row<TipoMedida>): (s: string)
    ensures Text.ParseLabel(s) == Some((r.id, r.data.nombre))
  {
    Text.ParseLabelOfLabel(r.id, r.data.nombre);
    Text.Label(r.id, r.data.nombre)
  }

  /** `Medida.__str__`: "id - nombre_corto". */
  function MedidaStr(r: Row<Medida>): (s: string)
    ensures Text.ParseLabel(s) == Some((r.id, r.data.nombreCorto))
  {
    Text.ParseLabelOfLabel(r.id, r.data.nombreCorto);
    Text.Label(r.id, r.data.nombreCorto)
  }

  /** `OrganismoSectorial.__str__`: "id - nombre". */
  function OrganismoSectorialStr(r: Row<OrganismoSectorial>): (s: string)
    ensures Text.ParseLabel(s) == Some((r.id, r.data.nombre))
  {
    Text.ParseLabelOfLabel(r.id, r.data.nombre);
    Text.Label(r.id, r.data.nombre)
  }

  /** `Plan.__str__`: "id - nombre". */
  function PlanStr(r: Row<Plan>): (s: string)
    ensures Text.ParseLabel(s) == Some((r.id, r.data.nombre))
  {
    Text.ParseLabelOfLabel(r.id, r.data.nombre);
    Text.Label(r.id, r.data.nombre)
  }

  /** `PlanOrganismoSectorial.__str__`: the id alone. */
  function PlanOrganismoSectorialStr(r: Row<PlanOrganismoSectorial>): (s: string)
    ensures Text.ParseInt(s) == Some(r.id)
  {
    Text.ParseIntOfIntToString(r.id);
    Text.IntToString(r.id)
  }

  /** `Reporte.__str__`: the id alone. */
  function ReporteStr(r: Row<Reporte>): (s: string)
    ensures Text.ParseInt(s) == Some(r.id)
  {
    Text.ParseIntOfIntToString(r.id);
    Text.IntToString(r.id)
  }
}

/**
 * The records of the board: tasks with their time log and history, and
 * sprints. Optional properties of the TypeScript interfaces are `Option`s;
 * timestamps and ids are opaque strings.
 */
module Tipos {
  import opened Wrappers

  /** A task's status; the board's three columns carry the same ids. */
  datatype Estado = Pendiente | EnProceso | Terminada

  /** The string id of a status, as stored and as used for the column ids. */
  function EstadoId(e: Estado): string {
    match e
    case Pendiente => "pendiente"
    case EnProceso => "en-proceso"
    case Terminada => "terminada"
  }

  /** One logged stretch of work. */
  datatype TiempoRegistrado = TiempoRegistrado(fecha: string, minutos: int, descripcion: string)

  /** The kind of a history event. */
  datatype TipoHistorial = Creacion | CambioEstado | RegistroTiempo | CambioSprint

  /** The string id of an event kind. */
  function TipoId(t: TipoHistorial): string {
    match t
    case Creacion => "creacion"
    case CambioEstado => "cambio_estado"
    case RegistroTiempo => "tiempo_registrado"
    case CambioSprint => "cambio_sprint"
  }

  /** One entry of a task's history; `estado` is the task's status at the event. */
  datatype HistorialTarea = HistorialTarea(fecha: string, tipo: TipoHistorial, descripcion: string, estado: Estado)

  datatype UserStory = UserStory(role: string, want: string, benefit: string)

  datatype AcceptanceCriteria = AcceptanceCriteria(id: string, descripcion: string, completado: bool)

  datatype Prioridad = Alta | Media | Baja

  /** The string id of a priority. */
  function PrioridadId(p: Prioridad): string {
    match p
    case Alta => "alta"
    case Media => "media"
    case Baja => "baja"
  }

  datatype Tarea = Tarea(
    id: string,
    titulo: string,
    descripcion: string,
    creador: string,
    estado: Estado,
    fechaCreacion: string,
    fechaFinalizacion: Option<string>,
    tiempoEstimado: Option<int>,
    tiemposRegistrados: seq<TiempoRegistrado>,
    sprintId: Option<string>,
    asignado: Option<string>,
    storyPoints: Option<int>,
    historial: Option<seq<HistorialTarea>>,
    prioridad: Option<Prioridad>,
    userStory: Option<UserStory>,
    acceptanceCriteria: Option<seq<AcceptanceCriteria>>,
    impediments: Option<seq<string>>,
    definitionOfDone: Option<seq<string>>)

  /** A task's history, an absent one read as empty (`tarea.historial || []`). */
  function Historial(t: Tarea): seq<HistorialTarea> {
    t.historial.GetOr([])
  }

  /** A sprint's status. */
  datatype EstadoSprint = Activo | Finalizado | Reabierto

  datatype Retrospectiva = Retrospectiva(bueno: seq<string>, mejorar: seq<string>, acciones: seq<string>)

  datatype DailyScrum = DailyScrum(fecha: string, miembro: string, ayer: string, hoy: string, impedimentos: seq<string>)

  datatype PuntoBurndown = PuntoBurndown(fecha: string, puntosPendientes: int)

  datatype Sprint = Sprint(
    id: string,
    empresaId: string,
    nombre: string,
    descripcion: Option<string>,
    fechaInicio: string,
    fechaFin: string,
    estado: EstadoSprint,
    objetivos: seq<string>,
    retrospectiva: Option<Retrospectiva>,
    velocidad: Option<int>,
    capacidad: Option<int>,
    meta: Option<string>,
    dailyScrums: Option<seq<DailyScrum>>,
    burndownData: Option<seq<PuntoBurndown>>)

  /** A task's id, as the callback `t => t.id`. */
  function IdTarea(t: Tarea): string {
    t.id
  }

  /** A sprint's id, as the callback `s => s.id`. */
  function IdSprint(s: Sprint): string {
    s.id
  }

  /** The list stored under `k`, or the empty list when there is none. */
  function Lista<T>(m: map<string, seq<T>>, k: string): seq<T> {
    if k in m then m[k] else []
  }

  /** Decimal digits of a natural number, as template literals print it. */
  function NatToString(n: nat): (s: string)
    ensures |s| >= 1
  {
    if n < 10 then ["0123456789"[n]] else NatToString(n / 10) + ["0123456789"[n % 10]]
  }

  /** An integer as template literals print it. */
  function IntToString(i: int): (s: string)
    ensures |s| >= 1
  {
    if i < 0 then "-" + NatToString(-i) else NatToString(i)
  }
}

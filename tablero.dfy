/**
 * The board: which tasks it shows, how dropping a card on another column
 * becomes a status change, and the rows of the spreadsheet export.
 * The selected company and the store's state are parameters; an empty
 * company id means none is selected (it is falsy).
 */
module Tablero {
  import opened Wrappers
  import opened Secuencias
  import opened Tipos
  import opened TarjetaTarea
  import Tareas
  import Sprints

  /** A board column: the status it holds and its heading. */
  datatype Columna = Columna(id: Estado, titulo: string)

  const Columnas: seq<Columna> :=
    [Columna(Pendiente, "Pendiente"), Columna(EnProceso, "En Proceso"), Columna(Terminada, "Terminada")]

  /**
   * The active-sprint selector: nothing without a selected company; otherwise
   * the company's pointer, with a missing, null or empty one read as nothing.
   */
  function SprintActivo(empresaActual: string, activos: map<string, Option<string>>): (r: Option<string>)
    ensures r.Some? <==> empresaActual != "" && empresaActual in activos
                         && activos[empresaActual].Some? && activos[empresaActual].value != ""
    ensures r.Some? ==> r == activos[empresaActual]
  {
    if empresaActual == "" then None
    else Truthy(if empresaActual in activos then activos[empresaActual] else None)
  }

  /** The filter of the visible-task selector. */
  predicate EsVisible(t: Tarea, sprintActivo: Option<string>) {
    (sprintActivo.Some? && t.sprintId == sprintActivo) || (Truthy(t.sprintId).None? && t.estado == Pendiente)
  }

  /** `EsVisible` as a callback for the filter. */
  function Visible(sprintActivo: Option<string>): Tarea -> bool {
    (t: Tarea) => EsVisible(t, sprintActivo)
  }

  /**
   * The visible-task selector: empty without a selected company or without a
   * task list for it; otherwise the company's tasks that pass `EsVisible`,
   * in the list's order and every copy of each.
   */
  function TareasVisibles(empresaActual: string, items: Tareas.Items, sprintActivo: Option<string>): (r: seq<Tarea>)
    ensures empresaActual == "" || empresaActual !in items ==> r == []
    ensures empresaActual != "" && empresaActual in items ==>
      && IsSubsequence(r, items[empresaActual])
      && (forall t :: t in r <==> t in items[empresaActual] && EsVisible(t, sprintActivo))
      && forall t :: multiset(r)[t] == if EsVisible(t, sprintActivo) then multiset(items[empresaActual])[t] else 0
  {
    if empresaActual == "" || empresaActual !in items then []
    else
      FilterMembersAll(items[empresaActual], Visible(sprintActivo));
      FilterCuentaTodas(items[empresaActual], Visible(sprintActivo));
      FilterIsSubsequence(items[empresaActual], Visible(sprintActivo));
      Filter(items[empresaActual], Visible(sprintActivo))
  }

  /**
   * A task bound to a sprint (a non-empty id) other than the active one is
   * never on the board.
   */
  lemma OtroSprintInvisible(empresaActual: string, items: Tareas.Items, sprintActivo: Option<string>, t: Tarea)
    requires t.sprintId.Some? && t.sprintId.value != "" && t.sprintId != sprintActivo
    ensures t !in TareasVisibles(empresaActual, items, sprintActivo)
  {
  }

  /** With no active sprint, only unsprinted pending tasks are on the board. */
  lemma SinSprintActivo(empresaActual: string, items: Tareas.Items, t: Tarea)
    requires t in TareasVisibles(empresaActual, items, None)
    ensures Truthy(t.sprintId).None? && t.estado == Pendiente
  {
  }

  /** The status callback `tarea => tarea.estado === columna.id`. */
  function EnColumna(columna: Estado): Tarea -> bool {
    (t: Tarea) => t.estado == columna
  }

  /** The cards of one column: the visible tasks with that status, in order, every copy of each. */
  function TareasDeColumna(tareas: seq<Tarea>, columna: Estado): (r: seq<Tarea>)
    ensures IsSubsequence(r, tareas)
    ensures forall t :: t in r <==> t in tareas && t.estado == columna
    ensures forall t :: multiset(r)[t] == if t.estado == columna then multiset(tareas)[t] else 0
  {
    FilterMembersAll(tareas, EnColumna(columna));
    FilterCuentaTodas(tareas, EnColumna(columna));
    FilterIsSubsequence(tareas, EnColumna(columna));
    Filter(tareas, EnColumna(columna))
  }

  /** Every visible task is shown in exactly one column, the one of its status. */
  lemma ColumnasParticionan(tareas: seq<Tarea>, t: Tarea, columna: Estado)
    requires t in tareas
    ensures t in TareasDeColumna(tareas, columna) <==> columna == t.estado
  {
  }

  // ----- handleDragEnd -----

  /**
   * What the drag-and-drop library reports when a card is released. The
   * droppable ids are the column ids, that is, statuses; `destination` is
   * absent when the card is dropped outside every column.
   */
  datatype DragResult = DragResult(draggableId: string, source: Estado, destination: Option<Estado>)

  /** The `actualizarEstadoTarea` action the board dispatches. */
  datatype AccionEstado = AccionEstado(empresaId: string, id: string, estado: Estado)

  /**
   * `handleDragEnd`: a status change is dispatched exactly when the card has
   * a destination, a company is selected and the column changed; the new
   * status is the destination column.
   */
  function ManejarDragEnd(result: DragResult, empresaActual: string): (r: Option<AccionEstado>)
    ensures r.Some? <==> result.destination.Some? && empresaActual != "" && result.source != result.destination.value
    ensures r.Some? ==> r.value == AccionEstado(empresaActual, result.draggableId, result.destination.value)
  {
    if result.destination.None? || empresaActual == "" then None
    else if result.source != result.destination.value then
      Some(AccionEstado(empresaActual, result.draggableId, result.destination.value))
    else None
  }

  /**
   * Dispatching the drag-end action puts the dragged card (the first task
   * with its id) in the destination column, and nothing else in the list
   * changes status.
   */
  lemma SoltarCambiaColumna(items: Tareas.Items, result: DragResult, empresaActual: string,
                            ahoraLocal: string, ahoraIso: string)
    requires ManejarDragEnd(result, empresaActual).Some?
    requires empresaActual in items && Tareas.IndiceTarea(items[empresaActual], result.draggableId) >= 0
    ensures var a := ManejarDragEnd(result, empresaActual).value;
      var r := Tareas.TrasActualizarEstado(items, a.empresaId, a.id, a.estado, ahoraLocal, ahoraIso);
      var k := Tareas.IndiceTarea(items[empresaActual], result.draggableId);
      && r[empresaActual][k].estado == result.destination.value
      && r[empresaActual][k].id == result.draggableId
      && forall i :: 0 <= i < |items[empresaActual]| && i != k ==>
           r[empresaActual][i].estado == items[empresaActual][i].estado
  {
  }

  // ----- exportarExcel -----

  /** `columnas.find(col => col.id === e)`: the first column with the status. */
  function BuscarColumna(cs: seq<Columna>, e: Estado): (r: Option<Columna>)
    ensures r.Some? ==> r.value.id == e
    ensures r.Some? ==> exists k :: 0 <= k < |cs| && cs[k] == r.value && forall j :: 0 <= j < k ==> cs[j].id != e
    ensures r.None? <==> forall i :: 0 <= i < |cs| ==> cs[i].id != e
  {
    if |cs| == 0 then None
    else if cs[0].id == e then Some(cs[0])
    else
      var r := BuscarColumna(cs[1..], e);
      assert r.Some? ==> exists k :: 0 <= k < |cs| && cs[k] == r.value && forall j :: 0 <= j < k ==> cs[j].id != e by {
        if r.Some? {
          var k :| 0 <= k < |cs[1..]| && cs[1..][k] == r.value && forall j :: 0 <= j < k ==> cs[1..][j].id != e;
          assert cs[k + 1] == r.value && forall j :: 0 <= j < k + 1 ==> cs[j].id != e;
        }
      }
      r
  }

  /** The status label of an exported row: the column's heading, the status id as fallback. */
  function TituloColumna(e: Estado): (s: string)
    ensures forall i :: 0 <= i < |Columnas| && Columnas[i].id == e ==> s == Columnas[i].titulo
  {
    match BuscarColumna(Columnas, e)
    case Some(c) => if c.titulo != "" then c.titulo else EstadoId(e)
    case None => EstadoId(e)
  }

  /** Every status has its own column, so labels tell statuses apart. */
  lemma TituloColumnaInyectivo(e1: Estado, e2: Estado)
    requires e1 != e2
    ensures TituloColumna(e1) != TituloColumna(e2)
  {
  }

  /** One row of the exported sheet. */
  datatype FilaExcel = FilaExcel(estado: string, titulo: string, descripcion: string,
                                 storyPoints: int, tiempoEstimado: int, tiempoTotal: int)

  /**
   * The row of one task: its column's heading, title and description, story
   * points and estimate with 0 for a missing value, and the logged minutes
   * added up (0 with no entries).
   */
  function FilaExportacion(t: Tarea): (f: FilaExcel)
    ensures f.estado == TituloColumna(t.estado)
    ensures f.titulo == t.titulo && f.descripcion == t.descripcion
    ensures f.storyPoints == (if t.storyPoints.Some? then t.storyPoints.value else 0)
    ensures f.tiempoEstimado == (if t.tiempoEstimado.Some? then t.tiempoEstimado.value else 0)
    ensures f.tiempoTotal == TiempoTotal(t.tiemposRegistrados)
    ensures |t.tiemposRegistrados| == 0 ==> f.tiempoTotal == 0
  {
    FilaExcel(TituloColumna(t.estado), t.titulo, t.descripcion,
              t.storyPoints.GetOr(0), t.tiempoEstimado.GetOr(0), TiempoTotal(t.tiemposRegistrados))
  }

  /**
   * `exportarExcel`: nothing to export (the alert path) for an empty board;
   * otherwise one row per visible task, in board order.
   */
  function ExportarExcel(tareas: seq<Tarea>): (r: Option<seq<FilaExcel>>)
    ensures r.None? <==> |tareas| == 0
    ensures r.Some? ==> |r.value| == |tareas| && forall i :: 0 <= i < |tareas| ==> r.value[i] == FilaExportacion(tareas[i])
  {
    if |tareas| == 0 then None
    else Some(seq(|tareas|, i requires 0 <= i < |tareas| => FilaExportacion(tareas[i])))
  }

  /** Logging time on a task raises its exported total by exactly the logged minutes. */
  lemma ExportarTrasRegistrarTiempo(t: Tarea, minutos: int, descripcion: string, ahoraLocal: string, ahoraIso: string)
    ensures FilaExportacion(Tareas.ConTiempo(t, minutos, descripcion, ahoraLocal, ahoraIso)).tiempoTotal
         == FilaExportacion(t).tiempoTotal + minutos
  {
  }

  // ----- the board across both slices -----

  /**
   * A task left bound to a sprint that is then finished is no longer on the
   * board: the pointer no longer names that sprint, and the task has a
   * sprint, so it is not in the unsprinted pool either.
   */
  lemma HuerfanaTrasFinalizar(tareas: Tareas.Items, s: Sprints.EstadoSprints, empresaActual: string, sprintId: string,
                              retrospectiva: Option<Retrospectiva>, velocidad: Option<int>, t: Tarea)
    requires Sprints.PunteroValido(s)
    requires t.sprintId == Some(sprintId) && sprintId != ""
    ensures var r := Sprints.TrasFinalizarSprint(s, empresaActual, sprintId, retrospectiva, velocidad);
      t !in TareasVisibles(empresaActual, tareas, SprintActivo(empresaActual, r.activeSprintsByCompany))
  {
  }

  /**
   * Starting a sprint and creating the first task of a company in it shows
   * exactly that task on the board.
   */
  lemma PrimeraTareaDelSprint(tareas: Tareas.Items, s: Sprints.EstadoSprints, empresaActual: string,
                              sprint: Sprint, tarea: Tarea, ahoraIso: string)
    requires empresaActual != "" && empresaActual !in tareas
    requires sprint.id != "" && tarea.sprintId == Some(sprint.id)
    ensures var s2 := Sprints.TrasIniciarSprint(s, empresaActual, sprint);
      var t2 := Tareas.TrasAgregarTarea(tareas, empresaActual, tarea, ahoraIso);
      TareasVisibles(empresaActual, t2, SprintActivo(empresaActual, s2.activeSprintsByCompany))
        == [tarea.(historial := Some([Tareas.EventoCreacion(tarea, ahoraIso)]))]
  {
  }
}

/**
 * The task slice: a map from company id to that company's ordered task list,
 * and the five reducers that change it. Each reducer is a method of
 * `TareasSlice` whose new state is given by a transition function `Tras…`
 * over the old map; the properties are proved about those functions.
 * Clock readings are parameters: `ahoraIso` for `new Date().toISOString()`,
 * `ahoraLocal` for the `toLocaleString('es-AR', …)` stamp.
 */
module Tareas {
  import opened Wrappers
  import opened Secuencias
  import opened Tipos
  import opened TarjetaTarea

  type Items = map<string, seq<Tarea>>

  /** `tareas.findIndex(t => t.id === id)`. */
  function IndiceTarea(ts: seq<Tarea>, id: string): (k: int)
    ensures -1 <= k < |ts|
    ensures k == -1 <==> forall i :: 0 <= i < |ts| ==> ts[i].id != id
    ensures 0 <= k ==> ts[k].id == id && forall i :: 0 <= i < k ==> ts[i].id != id
  {
    var k := FirstIndex(Ids(ts, IdTarea), id);
    k
  }

  /** Every task of every company has at least one history event. */
  ghost predicate TodasConHistorial(items: Items) {
    forall e, i :: e in items && 0 <= i < |items[e]| ==> |Historial(items[e][i])| >= 1
  }

  // ----- agregarTarea -----

  /** The `creacion` event that seeds a new task's history. */
  function EventoCreacion(t: Tarea, fecha: string): HistorialTarea {
    HistorialTarea(fecha, Creacion, "Tarea creada", t.estado)
  }

  /**
   * `agregarTarea`: the company's list, created empty when missing, gets the
   * task at its end with its history replaced by a single creation event.
   */
  function TrasAgregarTarea(items: Items, empresaId: string, tarea: Tarea, fecha: string): (r: Items)
    ensures r.Keys == items.Keys + {empresaId}
    ensures forall k :: k in items && k != empresaId ==> r[k] == items[k]
    ensures |r[empresaId]| == |Lista(items, empresaId)| + 1
    ensures r[empresaId][..|Lista(items, empresaId)|] == Lista(items, empresaId)
    ensures var n := r[empresaId][|Lista(items, empresaId)|];
      && n.(historial := tarea.historial) == tarea
      && Historial(n) == [HistorialTarea(fecha, Creacion, "Tarea creada", tarea.estado)]
  {
    items[empresaId := Lista(items, empresaId) + [tarea.(historial := Some([EventoCreacion(tarea, fecha)]))]]
  }

  /** Adding a task keeps every history non-empty. */
  lemma AgregarConservaHistorial(items: Items, empresaId: string, tarea: Tarea, fecha: string)
    requires TodasConHistorial(items)
    ensures TodasConHistorial(TrasAgregarTarea(items, empresaId, tarea, fecha))
  {
  }

  // ----- actualizarEstadoTarea -----

  /** The `cambio_estado` event for a change to `estado`. */
  function EventoEstado(estado: Estado, fecha: string): HistorialTarea {
    HistorialTarea(fecha, CambioEstado, "Estado cambiado a " + EstadoId(estado), estado)
  }

  /**
   * One task after a status change: the new status, the finish time stamped
   * exactly when the new status is `terminada` (and otherwise kept, never
   * cleared), one event appended to the history, every other field as before.
   */
  function ConEstado(t: Tarea, estado: Estado, ahoraLocal: string, ahoraIso: string): (r: Tarea)
    ensures r.estado == estado
    ensures r.fechaFinalizacion == if estado == Terminada then Some(ahoraLocal) else t.fechaFinalizacion
    ensures Historial(r) == Historial(t) + [HistorialTarea(ahoraIso, CambioEstado, "Estado cambiado a " + EstadoId(estado), estado)]
    ensures r.(estado := t.estado, fechaFinalizacion := t.fechaFinalizacion, historial := t.historial) == t
  {
    t.(estado := estado,
       fechaFinalizacion := if estado == Terminada then Some(ahoraLocal) else t.fechaFinalizacion,
       historial := Some(Historial(t) + [EventoEstado(estado, ahoraIso)]))
  }

  /**
   * `actualizarEstadoTarea`: a no-op when the company has no list or no task
   * has the id; otherwise only the first task with the id is replaced.
   */
  function TrasActualizarEstado(items: Items, empresaId: string, id: string, estado: Estado,
                                ahoraLocal: string, ahoraIso: string): (r: Items)
    ensures empresaId !in items || IndiceTarea(items[empresaId], id) == -1 ==> r == items
    ensures r.Keys == items.Keys
    ensures forall k :: k in items && k != empresaId ==> r[k] == items[k]
    ensures empresaId in items ==>
      var ts, k := items[empresaId], IndiceTarea(items[empresaId], id);
      && |r[empresaId]| == |ts|
      && (forall i :: 0 <= i < |ts| && i != k ==> r[empresaId][i] == ts[i])
      && (0 <= k ==> r[empresaId][k] == ConEstado(ts[k], estado, ahoraLocal, ahoraIso))
  {
    if empresaId !in items then items
    else
      var ts := items[empresaId];
      var k := IndiceTarea(ts, id);
      if k == -1 then items
      else items[empresaId := ts[k := ConEstado(ts[k], estado, ahoraLocal, ahoraIso)]]
  }

  /**
   * Re-applying the same status, at a later clock reading, changes nothing
   * but the history, which grows by one more event, and, for `terminada`, the
   * finish time, which takes the later reading.
   */
  lemma EstadoReaplicado(t: Tarea, estado: Estado, local1: string, iso1: string, local2: string, iso2: string)
    ensures var r1 := ConEstado(t, estado, local1, iso1);
      var r2 := ConEstado(r1, estado, local2, iso2);
      && r2.(historial := r1.historial, fechaFinalizacion := r1.fechaFinalizacion) == r1
      && r2.fechaFinalizacion == (if estado == Terminada then Some(local2) else r1.fechaFinalizacion)
      && |Historial(r2)| == |Historial(r1)| + 1
  {
  }

  /** A status change keeps every history non-empty. */
  lemma ActualizarEstadoConservaHistorial(items: Items, empresaId: string, id: string, estado: Estado,
                                          ahoraLocal: string, ahoraIso: string)
    requires TodasConHistorial(items)
    ensures TodasConHistorial(TrasActualizarEstado(items, empresaId, id, estado, ahoraLocal, ahoraIso))
  {
  }

  // ----- eliminarTarea -----

  /** The filter callback `t => t.id !== id`. */
  function OtroId(id: string): Tarea -> bool {
    (t: Tarea) => t.id != id
  }

  /**
   * `eliminarTarea`: keeps, in order, exactly the tasks whose id differs,
   * every copy of each;
   * an absent company list is left untouched (it is not created).
   */
  function TrasEliminarTarea(items: Items, empresaId: string, id: string): (r: Items)
    ensures empresaId !in items ==> r == items
    ensures r.Keys == items.Keys
    ensures forall k :: k in items && k != empresaId ==> r[k] == items[k]
    ensures empresaId in items ==>
      && (forall t :: t in r[empresaId] <==> t in items[empresaId] && t.id != id)
      && (forall t :: multiset(r[empresaId])[t] == if t.id != id then multiset(items[empresaId])[t] else 0)
      && IsSubsequence(r[empresaId], items[empresaId])
  {
    if empresaId in items then
      FilterMembersAll(items[empresaId], OtroId(id));
      FilterCuentaTodas(items[empresaId], OtroId(id));
      FilterIsSubsequence(items[empresaId], OtroId(id));
      items[empresaId := Filter(items[empresaId], OtroId(id))]
    else items
  }

  /** Deleting the same id twice is deleting it once. */
  lemma EliminarIdempotente(items: Items, empresaId: string, id: string)
    ensures TrasEliminarTarea(TrasEliminarTarea(items, empresaId, id), empresaId, id)
         == TrasEliminarTarea(items, empresaId, id)
  {
    if empresaId in items {
      FilterIdempotent(items[empresaId], OtroId(id));
    }
  }

  /** Deleting an id no task has changes nothing. */
  lemma EliminarAusente(items: Items, empresaId: string, id: string)
    requires empresaId in items ==> forall i :: 0 <= i < |items[empresaId]| ==> items[empresaId][i].id != id
    ensures TrasEliminarTarea(items, empresaId, id) == items
  {
    if empresaId in items {
      FilterKeepsAll(items[empresaId], OtroId(id));
    }
  }

  /** Deleting keeps every history non-empty. */
  lemma EliminarConservaHistorial(items: Items, empresaId: string, id: string)
    requires TodasConHistorial(items)
    ensures TodasConHistorial(TrasEliminarTarea(items, empresaId, id))
  {
  }

  // ----- agregarTiempoTarea -----

  /** The `tiempo_registrado` event for a logged entry. */
  function EventoTiempo(minutos: int, descripcion: string, estado: Estado, fecha: string): HistorialTarea {
    HistorialTarea(fecha, RegistroTiempo,
                   "Se registraron " + IntToString(minutos) + " minutos: " + descripcion, estado)
  }

  /**
   * One task after logging time: one entry with the caller's minutes and
   * description appended (so the total grows by exactly `minutos`), one
   * event appended to the history, status, sprint and all else unchanged.
   */
  function ConTiempo(t: Tarea, minutos: int, descripcion: string, ahoraLocal: string, ahoraIso: string): (r: Tarea)
    ensures r.tiemposRegistrados == t.tiemposRegistrados + [TiempoRegistrado(ahoraLocal, minutos, descripcion)]
    ensures TiempoTotal(r.tiemposRegistrados) == TiempoTotal(t.tiemposRegistrados) + minutos
    ensures Historial(r) == Historial(t) + [EventoTiempo(minutos, descripcion, t.estado, ahoraIso)]
    ensures r.(tiemposRegistrados := t.tiemposRegistrados, historial := t.historial) == t
  {
    TiempoTotalAgregar(t.tiemposRegistrados, TiempoRegistrado(ahoraLocal, minutos, descripcion));
    t.(tiemposRegistrados := t.tiemposRegistrados + [TiempoRegistrado(ahoraLocal, minutos, descripcion)],
       historial := Some(Historial(t) + [EventoTiempo(minutos, descripcion, t.estado, ahoraIso)]))
  }

  /**
   * `agregarTiempoTarea`: a no-op when the company has no list or no task has
   * the id; otherwise only the first task with the id is replaced.
   */
  function TrasAgregarTiempo(items: Items, empresaId: string, id: string, minutos: int, descripcion: string,
                             ahoraLocal: string, ahoraIso: string): (r: Items)
    ensures empresaId !in items || IndiceTarea(items[empresaId], id) == -1 ==> r == items
    ensures r.Keys == items.Keys
    ensures forall k :: k in items && k != empresaId ==> r[k] == items[k]
    ensures empresaId in items ==>
      var ts, k := items[empresaId], IndiceTarea(items[empresaId], id);
      && |r[empresaId]| == |ts|
      && (forall i :: 0 <= i < |ts| && i != k ==> r[empresaId][i] == ts[i])
      && (0 <= k ==> r[empresaId][k] == ConTiempo(ts[k], minutos, descripcion, ahoraLocal, ahoraIso))
  {
    if empresaId !in items then items
    else
      var ts := items[empresaId];
      var k := IndiceTarea(ts, id);
      if k == -1 then items
      else items[empresaId := ts[k := ConTiempo(ts[k], minutos, descripcion, ahoraLocal, ahoraIso)]]
  }

  /** Logging time keeps every history non-empty. */
  lemma AgregarTiempoConservaHistorial(items: Items, empresaId: string, id: string, minutos: int,
                                       descripcion: string, ahoraLocal: string, ahoraIso: string)
    requires TodasConHistorial(items)
    ensures TodasConHistorial(TrasAgregarTiempo(items, empresaId, id, minutos, descripcion, ahoraLocal, ahoraIso))
  {
  }

  // ----- actualizarTareasSprint -----

  /** The `cambio_sprint` event of a task moved (or removed) from a sprint. */
  function EventoMovida(sprintNuevoId: Option<string>, estado: Estado, fecha: string): HistorialTarea {
    HistorialTarea(fecha, CambioSprint,
                   if Truthy(sprintNuevoId).Some? then "Tarea movida al siguiente sprint" else "Tarea removida del sprint",
                   estado)
  }

  /** The `cambio_sprint` event of a task sent back to the unsprinted pending pool. */
  function EventoPendiente(estado: Estado, fecha: string): HistorialTarea {
    HistorialTarea(fecha, CambioSprint, "Tarea marcada como pendiente", estado)
  }

  /**
   * One task when sprint `anterior` closes. Only a task bound to `anterior`
   * whose id is listed changes: listed to move, it is bound to the new sprint
   * (unset when that is null or empty); listed only as pending, it is
   * unbound. Moving takes precedence. A change appends one event.
   */
  function Reasignada(t: Tarea, anterior: string, sprintNuevoId: Option<string>,
                      aMover: seq<string>, pendientes: seq<string>, fecha: string): (r: Tarea)
    ensures t.sprintId != Some(anterior) || (t.id !in aMover && t.id !in pendientes) ==> r == t
    ensures t.sprintId == Some(anterior) && t.id in aMover ==>
      && r.sprintId == Truthy(sprintNuevoId)
      && Historial(r) == Historial(t) + [EventoMovida(sprintNuevoId, t.estado, fecha)]
    ensures t.sprintId == Some(anterior) && t.id !in aMover && t.id in pendientes ==>
      && r.sprintId == None
      && Historial(r) == Historial(t) + [HistorialTarea(fecha, CambioSprint, "Tarea marcada como pendiente", t.estado)]
    ensures r.(sprintId := t.sprintId, historial := t.historial) == t
  {
    if t.sprintId == Some(anterior) then
      if t.id in aMover then
        t.(sprintId := Truthy(sprintNuevoId), historial := Some(Historial(t) + [EventoMovida(sprintNuevoId, t.estado, fecha)]))
      else if t.id in pendientes then
        t.(sprintId := None, historial := Some(Historial(t) + [EventoPendiente(t.estado, fecha)]))
      else t
    else t
  }

  /**
   * `actualizarTareasSprint`: every task of the company's list goes through
   * `Reasignada`, which keeps the length and the order; a missing company
   * list is left untouched.
   */
  function TrasActualizarTareasSprint(items: Items, empresaId: string, anterior: string, sprintNuevoId: Option<string>,
                                      aMover: seq<string>, pendientes: seq<string>, fecha: string): (r: Items)
    ensures empresaId !in items ==> r == items
    ensures r.Keys == items.Keys
    ensures forall k :: k in items && k != empresaId ==> r[k] == items[k]
    ensures empresaId in items ==>
      && |r[empresaId]| == |items[empresaId]|
      && forall i :: 0 <= i < |items[empresaId]| ==>
           r[empresaId][i] == Reasignada(items[empresaId][i], anterior, sprintNuevoId, aMover, pendientes, fecha)
  {
    if empresaId in items then
      var ts := items[empresaId];
      items[empresaId := seq(|ts|, i requires 0 <= i < |ts| =>
                               Reasignada(ts[i], anterior, sprintNuevoId, aMover, pendientes, fecha))]
    else items
  }

  /**
   * When the new sprint is a different one, the tasks still bound to the
   * closed sprint afterwards are exactly those that were bound to it and
   * appear in neither list (they are left orphaned).
   */
  lemma SoloQuedanLasNoListadas(items: Items, empresaId: string, anterior: string, sprintNuevoId: Option<string>,
                                aMover: seq<string>, pendientes: seq<string>, fecha: string, i: int)
    requires empresaId in items && 0 <= i < |items[empresaId]|
    requires Truthy(sprintNuevoId) != Some(anterior)
    ensures var r := TrasActualizarTareasSprint(items, empresaId, anterior, sprintNuevoId, aMover, pendientes, fecha);
      var t := items[empresaId][i];
      r[empresaId][i].sprintId == Some(anterior) <==>
        t.sprintId == Some(anterior) && t.id !in aMover && t.id !in pendientes
  {
  }

  /** Rebinding keeps every history non-empty. */
  lemma ActualizarSprintConservaHistorial(items: Items, empresaId: string, anterior: string, sprintNuevoId: Option<string>,
                                          aMover: seq<string>, pendientes: seq<string>, fecha: string)
    requires TodasConHistorial(items)
    ensures TodasConHistorial(TrasActualizarTareasSprint(items, empresaId, anterior, sprintNuevoId, aMover, pendientes, fecha))
  {
  }

  // ----- the slice -----

  /** The mutable task state of the store (its `items`). */
  class TareasSlice {
    var items: Items

    /** The slice's invariant: every task has at least one history event. */
    ghost predicate Valid()
      reads this
    {
      TodasConHistorial(items)
    }

    /** The state preloaded from storage, taken as given. */
    constructor (inicial: Items)
      ensures items == inicial
    {
      items := inicial;
    }

    method AgregarTarea(empresaId: string, tarea: Tarea, ahoraIso: string)
      modifies this
      ensures items == TrasAgregarTarea(old(items), empresaId, tarea, ahoraIso)
      ensures old(Valid()) ==> Valid()
    {
      if empresaId !in items {
        items := items[empresaId := []];
      }
      var nueva := tarea.(historial := Some([EventoCreacion(tarea, ahoraIso)]));
      items := items[empresaId := items[empresaId] + [nueva]];
      if old(Valid()) {
        AgregarConservaHistorial(old(items), empresaId, tarea, ahoraIso);
      }
    }

    method ActualizarEstadoTarea(empresaId: string, id: string, estado: Estado, ahoraLocal: string, ahoraIso: string)
      modifies this
      ensures items == TrasActualizarEstado(old(items), empresaId, id, estado, ahoraLocal, ahoraIso)
      ensures old(Valid()) ==> Valid()
    {
      if empresaId in items {
        var tareas := items[empresaId];
        var k := IndiceTarea(tareas, id);
        if k != -1 {
          var tarea := tareas[k];
          var fin := if estado == Terminada then Some(ahoraLocal) else tarea.fechaFinalizacion;
          tareas := tareas[k := tarea.(estado := estado, fechaFinalizacion := fin,
                                       historial := Some(Historial(tarea) + [EventoEstado(estado, ahoraIso)]))];
          items := items[empresaId := tareas];
        }
      }
      if old(Valid()) {
        ActualizarEstadoConservaHistorial(old(items), empresaId, id, estado, ahoraLocal, ahoraIso);
      }
    }

    method EliminarTarea(empresaId: string, id: string)
      modifies this
      ensures items == TrasEliminarTarea(old(items), empresaId, id)
      ensures old(Valid()) ==> Valid()
    {
      if empresaId in items {
        items := items[empresaId := Filter(items[empresaId], OtroId(id))];
      }
      if old(Valid()) {
        EliminarConservaHistorial(old(items), empresaId, id);
      }
    }

    method AgregarTiempoTarea(empresaId: string, id: string, minutos: int, descripcion: string,
                              ahoraLocal: string, ahoraIso: string)
      modifies this
      ensures items == TrasAgregarTiempo(old(items), empresaId, id, minutos, descripcion, ahoraLocal, ahoraIso)
      ensures old(Valid()) ==> Valid()
    {
      if empresaId in items {
        var tareas := items[empresaId];
        var k := IndiceTarea(tareas, id);
        if k != -1 {
          var tarea := tareas[k];
          var nuevoTiempo := TiempoRegistrado(ahoraLocal, minutos, descripcion);
          tareas := tareas[k := tarea.(tiemposRegistrados := tarea.tiemposRegistrados + [nuevoTiempo],
                                       historial := Some(Historial(tarea) + [EventoTiempo(minutos, descripcion, tarea.estado, ahoraIso)]))];
          items := items[empresaId := tareas];
        }
      }
      if old(Valid()) {
        AgregarTiempoConservaHistorial(old(items), empresaId, id, minutos, descripcion, ahoraLocal, ahoraIso);
      }
    }

    method ActualizarTareasSprint(empresaId: string, anterior: string, sprintNuevoId: Option<string>,
                                  aMover: seq<string>, pendientes: seq<string>, ahoraIso: string)
      modifies this
      ensures items == TrasActualizarTareasSprint(old(items), empresaId, anterior, sprintNuevoId, aMover, pendientes, ahoraIso)
      ensures old(Valid()) ==> Valid()
    {
      if empresaId in items {
        var tareas := items[empresaId];
        var index := 0;
        while index < |tareas|
          invariant 0 <= index <= |tareas| == |old(items)[empresaId]|
          invariant forall j :: 0 <= j < index ==>
            tareas[j] == Reasignada(old(items)[empresaId][j], anterior, sprintNuevoId, aMover, pendientes, ahoraIso)
          invariant forall j :: index <= j < |tareas| ==> tareas[j] == old(items)[empresaId][j]
          invariant items == old(items)
        {
          var tarea := tareas[index];
          if tarea.sprintId == Some(anterior) {
            if tarea.id in aMover {
              tareas := tareas[index := tarea.(sprintId := Truthy(sprintNuevoId),
                                               historial := Some(Historial(tarea) + [EventoMovida(sprintNuevoId, tarea.estado, ahoraIso)]))];
            } else if tarea.id in pendientes {
              tareas := tareas[index := tarea.(sprintId := None,
                                               historial := Some(Historial(tarea) + [EventoPendiente(tarea.estado, ahoraIso)]))];
            }
          }
          index := index + 1;
        }
        ghost var esperado := TrasActualizarTareasSprint(old(items), empresaId, anterior, sprintNuevoId, aMover, pendientes, ahoraIso);
        assert tareas == esperado[empresaId];
        items := items[empresaId := tareas];
      }
      if old(Valid()) {
        ActualizarSprintConservaHistorial(old(items), empresaId, anterior, sprintNuevoId, aMover, pendientes, ahoraIso);
      }
    }
  }
}

# Task and sprint board: a Dafny model of its state logic

This project models the state core of a small Scrum board. Companies
(*empresas*) own tasks (*tareas*) and sprints. The Redux store keeps two
slices:

- **tasks**: a map from company id to that company's ordered task list;
- **sprints**: a map from company id to its sprint list, plus a per-company
  active-sprint pointer.

The reducers that change these slices are modelled imperatively. Each slice
is a class (`Tareas.TareasSlice`, `Sprints.SprintSlice`) whose fields are the
slice's maps, and each reducer is a method with `modifies this`. Every
method's `ensures` gives its new state as a transition function of the old
state (`TrasAgregarTarea`, `TrasFinalizarSprint`, …). The properties are
proved about those transition functions:

- no-op when the company or the id is absent;
- exactly one history event appended;
- nothing else changes;
- length and order kept;
- the invariants each reducer preserves: every task has history, and a set
  sprint pointer names a sprint of its company.

The board's derivations are pure functions: the active-sprint and
visible-task selectors, the drag-and-drop status decision, the export rows,
and the card's colour and time helpers.

Modules and their files:

- `wrappers.dfy`: `Option`, and JavaScript truthiness of optional strings.
- `secuencias.dfy`: `findIndex` and `filter`, with the subsequence facts.
- `tipos.dfy`: the records of `src/types/index.ts`.
- `tarjeta_tarea.dfy`: the card helpers of `src/components/TarjetaTarea.tsx`.
- `tareas.dfy`: the task slice of `src/store/tareasSlice.ts`.
- `sprints.dfy`: the sprint slice of `src/store/sprintSlice.ts`.
- `tablero.dfy`: the board of `src/components/Tablero.tsx`, and lemmas that
  join both slices.

Modelling choices:

- **Falsy strings.** JavaScript treats the empty string as false. That
  matters in `sprintNuevoId || undefined`, `sprintId || null`,
  `!tarea.sprintId` and `!empresaActual`. `Wrappers.Truthy` models it, and
  an empty `empresaActual` means no company is selected.
- **The pointer map.** `activeSprintsByCompany` is a
  `map<string, Option<string>>`. A missing key and a stored `null` are kept
  apart, because finishing and deleting a sprint write `null`.
- **Clock readings.** The reducers read the clock; the model takes those
  readings as parameters. `ahoraIso` stands for `toISOString()` and
  `ahoraLocal` for the `es-AR` locale stamp.
- **History.** A task's `historial` is optional, as in the type. The
  reducers read a missing one as empty.

Behaviour of the reducers worth knowing:

- `agregarTarea` stores the task with its own status and sprint. It does not
  set `pendiente` or the active sprint; the task form does that before it
  dispatches.
- `eliminarTarea` removes every task with the id.
- `actualizarTareasSprint` appends one event per task it changes. It appends
  none to the others.
- `agregarTiempoTarea` does not check that the minutes are positive.

## Model

| member | source | states |
|---|---|---|
| `Wrappers.Truthy` | src/store/tareasSlice.ts:148 | `o || undefined` on an optional string: keeps it iff it is present and non-empty |
| `Secuencias.FirstIndex` | src/store/tareasSlice.ts:55 | `findIndex`: -1 iff the id is absent, otherwise the index of its first occurrence |
| `Secuencias.Filter` | src/store/tareasSlice.ts:89 | `filter` never lengthens a list |
| `Secuencias.FilterMembers` | src/store/tareasSlice.ts:89 | an element is in the filtered list iff it was in the list and passes the callback |
| `Secuencias.FilterCuenta` | src/store/tareasSlice.ts:89 | `filter` keeps every copy of an element that passes and no copy of one that fails |
| `Secuencias.FilterIsSubsequence` | src/store/tareasSlice.ts:89 | the filtered list is a subsequence of the original, in the original order |
| `Secuencias.FilterKeepsAll` | src/store/tareasSlice.ts:89 | when every element passes, filtering returns the list unchanged |
| `Secuencias.FilterIdempotent` | src/store/tareasSlice.ts:89 | filtering twice by the same callback is filtering once |
| `TarjetaTarea.ColorTarjeta` | src/components/TarjetaTarea.tsx:13-24 | the three status ids get the red, yellow and green card; every other string, and only those, gets gray |
| `TarjetaTarea.ColorTarjetaInyectivo` | src/components/TarjetaTarea.tsx:13-24 | distinct statuses get distinct card colours |
| `TarjetaTarea.ColorPrioridad` | src/components/TarjetaTarea.tsx:26-37 | `alta`, `media` and `baja` get red, yellow and green; missing or any other value gets gray, and only those |
| `TarjetaTarea.ColorStoryPoints` | src/components/TarjetaTarea.tsx:39-45 | missing or 0 is gray; otherwise up to 3 is green, up to 5 yellow, up to 8 orange, above 8 red |
| `TarjetaTarea.ColorStoryPointsMonotono` | src/components/TarjetaTarea.tsx:39-45 | for positive points, more points never give a lower band, and never gray |
| `TarjetaTarea.TiempoTotal` | src/components/TarjetaTarea.tsx:52-55 | the `minutos` reduce: 0 for no entries, and the left fold equals the sum taken from the head |
| `TarjetaTarea.TiempoTotalAgregar` | src/components/TarjetaTarea.tsx:52-55 | the total grows by exactly the minutes of an appended entry |
| `TarjetaTarea.TiempoTotalConcat` | src/components/TarjetaTarea.tsx:52-55 | the total of a concatenation is the sum of the two totals |
| `TarjetaTarea.TiempoTotalNoNegativo` | src/components/TarjetaTarea.tsx:52-55 | with no negative entries the total is not negative |
| `TarjetaTarea.TiempoTotalCota` | src/components/TarjetaTarea.tsx:52-55 | with no negative entries the total is at least any single entry |
| `TarjetaTarea.Insignia` | src/components/TarjetaTarea.tsx:89-92 | the badge is shown iff the total is positive; then hours*60 + minutes = total, with 0 <= minutes < 60 |
| `TarjetaTarea.InsigniaUnica` | src/components/TarjetaTarea.tsx:92 | the badge's split is the only one with minutes below 60 |
| `Tareas.IndiceTarea` | src/store/tareasSlice.ts:55 | -1 iff no task has the id, otherwise the first task with it |
| `Tareas.TrasAgregarTarea` | src/store/tareasSlice.ts:28-43 | creates the list if missing and appends one task at its end; the task is the given one except that its history is exactly one `creacion` event carrying its own status; other companies are unchanged |
| `Tareas.AgregarConservaHistorial` | src/store/tareasSlice.ts:33-41 | adding a task keeps every task's history non-empty |
| `Tareas.ConEstado` | src/store/tareasSlice.ts:57-75 | new status; finish time is the given stamp iff the status is `terminada`, otherwise kept; old history plus one `cambio_estado` event; all other fields kept |
| `Tareas.TrasActualizarEstado` | src/store/tareasSlice.ts:52-78 | no-op when the list or the id is missing; otherwise only the first task with the id is replaced, length kept, other companies unchanged |
| `Tareas.EstadoReaplicado` | src/store/tareasSlice.ts:57-75 | re-applying the same status at a later clock reading changes nothing but the history, which grows by one, and, for `terminada`, the finish time, which takes the later reading |
| `Tareas.ActualizarEstadoConservaHistorial` | src/store/tareasSlice.ts:66-74 | a status change keeps every history non-empty |
| `Tareas.TrasEliminarTarea` | src/store/tareasSlice.ts:87-91 | a missing list is left untouched; otherwise it keeps, in order, exactly the tasks with another id, every copy of each; other companies unchanged |
| `Tareas.EliminarIdempotente` | src/store/tareasSlice.ts:88-89 | deleting the same id twice is deleting it once |
| `Tareas.EliminarAusente` | src/store/tareasSlice.ts:88-89 | deleting an id no task has changes nothing |
| `Tareas.EliminarConservaHistorial` | src/store/tareasSlice.ts:88-89 | deleting keeps every history non-empty |
| `Tareas.ConTiempo` | src/store/tareasSlice.ts:106-125 | one entry with the caller's minutes and description appended, so the total grows by exactly those minutes; one `tiempo_registrado` event appended; status, sprint and all else kept |
| `Tareas.TrasAgregarTiempo` | src/store/tareasSlice.ts:101-128 | no-op when the list or the id is missing; otherwise only the first task with the id is replaced, length kept, other companies unchanged |
| `Tareas.AgregarTiempoConservaHistorial` | src/store/tareasSlice.ts:116-124 | logging time keeps every history non-empty |
| `Tareas.Reasignada` | src/store/tareasSlice.ts:144-176 | a task not bound to the old sprint, or in neither list, is unchanged; listed to move, it gets the new sprint (unset when null or empty), and this takes precedence; listed only as pending, its sprint is unset; a change appends one `cambio_sprint` event |
| `Tareas.TrasActualizarTareasSprint` | src/store/tareasSlice.ts:140-179 | every task of the list goes through `Reasignada`, length and order kept; a missing list and other companies unchanged |
| `Tareas.SoloQuedanLasNoListadas` | src/store/tareasSlice.ts:143-177 | when the new sprint differs, a task is still bound to the old sprint afterwards iff it was bound and is in neither list |
| `Tareas.ActualizarSprintConservaHistorial` | src/store/tareasSlice.ts:143-177 | rebinding keeps every history non-empty |
| `Tareas.TareasSlice.constructor` | src/store/tareasSlice.ts:10-14 | the slice starts from the preloaded task map |
| `Tareas.TareasSlice.AgregarTarea` | src/store/tareasSlice.ts:28-43 | lazily creates the list, then pushes; new state is `TrasAgregarTarea` of the old; keeps `Valid()` (every task keeps a non-empty history) |
| `Tareas.TareasSlice.ActualizarEstadoTarea` | src/store/tareasSlice.ts:44-79 | overwrites the found element; new state is `TrasActualizarEstado` of the old; keeps `Valid()` (every task keeps a non-empty history) |
| `Tareas.TareasSlice.EliminarTarea` | src/store/tareasSlice.ts:80-92 | reassigns the filtered list; new state is `TrasEliminarTarea` of the old; keeps `Valid()` (every task keeps a non-empty history) |
| `Tareas.TareasSlice.AgregarTiempoTarea` | src/store/tareasSlice.ts:93-129 | overwrites the found element; new state is `TrasAgregarTiempo` of the old; keeps `Valid()` (every task keeps a non-empty history) |
| `Tareas.TareasSlice.ActualizarTareasSprint` | src/store/tareasSlice.ts:130-180 | the `forEach` loop writing elements by index; new state is `TrasActualizarTareasSprint` of the old; keeps `Valid()` (every task keeps a non-empty history) |
| `Sprints.IndiceSprint` | src/store/sprintSlice.ts:46 | -1 iff no sprint has the id, otherwise the first sprint with it |
| `Sprints.TrasIniciarSprint` | src/store/sprintSlice.ts:27-35 | appends the sprint to the company's list (created if missing) and sets the company's pointer to its id; other companies' lists and pointers unchanged |
| `Sprints.IniciarConservaPuntero` | src/store/sprintSlice.ts:32-35 | starting a sprint keeps every set pointer naming a sprint of its company |
| `Sprints.TrasFinalizarSprint` | src/store/sprintSlice.ts:45-57 | no-op when no sprint matches; otherwise the first match becomes `finalizado` with the given retrospective and velocity, absent ones included, all else kept; the pointer is cleared only when it named this id |
| `Sprints.ApuntadoEsHallado` | src/store/sprintSlice.ts:46 | under the invariant, a pointed sprint is always found by `find` |
| `Sprints.FinalizarConservaPuntero` | src/store/sprintSlice.ts:54-56 | finishing keeps the pointer invariant |
| `Sprints.FinalizarLiberaPuntero` | src/store/sprintSlice.ts:54-56 | under the invariant, after finishing sprint s the company's pointer is not s |
| `Sprints.TrasReabrirSprint` | src/store/sprintSlice.ts:62-69 | no-op when no sprint matches; otherwise only the first match changes, to `reabierto` with retrospective and velocity kept, and the pointer is set to it |
| `Sprints.ReabrirConservaPuntero` | src/store/sprintSlice.ts:65-67 | reopening keeps the pointer invariant |
| `Sprints.ReabrirNoTocaAnterior` | src/store/sprintSlice.ts:65-67 | reopening while another sprint is pointed to moves the pointer and leaves the other sprint, status included, unchanged |
| `Sprints.TrasEliminarSprint` | src/store/sprintSlice.ts:73-82 | no-op when the list is missing; otherwise keeps, in order, exactly the sprints with another id, every copy of each, and clears the pointer iff it named the id |
| `Sprints.EliminarConservaPuntero` | src/store/sprintSlice.ts:75-81 | deleting keeps the pointer invariant |
| `Sprints.EliminarLiberaPuntero` | src/store/sprintSlice.ts:78-80 | under the invariant, after deleting sprint s the company's pointer is not s |
| `Sprints.SprintSlice.constructor` | src/store/sprintSlice.ts:9-12 | the slice starts from the preloaded sprints and pointers |
| `Sprints.SprintSlice.IniciarSprint` | src/store/sprintSlice.ts:23-38 | lazily creates the list, pushes, writes the pointer; new state is `TrasIniciarSprint` of the old; keeps `Valid()` (a set pointer keeps naming a sprint of its company) |
| `Sprints.SprintSlice.FinalizarSprint` | src/store/sprintSlice.ts:39-60 | writes the found sprint's three fields and maybe the pointer; new state is `TrasFinalizarSprint` of the old; keeps `Valid()` (a set pointer keeps naming a sprint of its company) |
| `Sprints.SprintSlice.ReabrirSprint` | src/store/sprintSlice.ts:61-71 | writes the found sprint's status and the pointer; new state is `TrasReabrirSprint` of the old; keeps `Valid()` (a set pointer keeps naming a sprint of its company) |
| `Sprints.SprintSlice.EliminarSprint` | src/store/sprintSlice.ts:72-84 | reassigns the filtered list and maybe clears the pointer; new state is `TrasEliminarSprint` of the old; keeps `Valid()` (a set pointer keeps naming a sprint of its company) |
| `Tablero.SprintActivo` | src/components/Tablero.tsx:23-27 | an active sprint exists iff a company is selected and its pointer is present, non-null and non-empty; it is that pointer |
| `Tablero.TareasVisibles` | src/components/Tablero.tsx:29-36 | empty without a selected company or list; otherwise a subsequence of the company's list, holding exactly its tasks that are in the active sprint or are unsprinted and pending, every copy of each |
| `Tablero.OtroSprintInvisible` | src/components/Tablero.tsx:33 | a task bound to a sprint other than the active one is never visible |
| `Tablero.SinSprintActivo` | src/components/Tablero.tsx:32-35 | with no active sprint only unsprinted pending tasks are visible |
| `Tablero.TareasDeColumna` | src/components/Tablero.tsx:132-133 | a column shows, in order, exactly the tasks with its status, every copy of each |
| `Tablero.ColumnasParticionan` | src/components/Tablero.tsx:118-133 | each task is in exactly one column, the one of its status |
| `Tablero.ManejarDragEnd` | src/components/Tablero.tsx:38-52 | a status change is emitted iff there is a destination, a selected company and a different column; it names the dragged task and the destination column |
| `Tablero.SoltarCambiaColumna` | src/components/Tablero.tsx:45-50 | dispatching that change puts the dragged task in the destination column and changes no other task's status |
| `Tablero.BuscarColumna` | src/components/Tablero.tsx:62 | `columnas.find` returns the first column with the status, or none exactly when no column has it |
| `Tablero.TituloColumna` | src/components/Tablero.tsx:14-18 | the status label is the heading of the column with that status |
| `Tablero.TituloColumnaInyectivo` | src/components/Tablero.tsx:14-18 | distinct statuses get distinct labels |
| `Tablero.FilaExportacion` | src/components/Tablero.tsx:61-68 | column heading, title, description; story points and estimate default to 0; total minutes is the sum of the entries, 0 with none |
| `Tablero.ExportarExcel` | src/components/Tablero.tsx:54-68 | nothing is exported iff the board is empty; otherwise one row per task, in order |
| `Tablero.ExportarTrasRegistrarTiempo` | src/components/Tablero.tsx:67 | logging time raises a task's exported total by exactly the logged minutes |
| `Tablero.HuerfanaTrasFinalizar` | src/components/Tablero.tsx:32-35 | after its sprint is finished, a task still bound to it is not on the board |
| `Tablero.PrimeraTareaDelSprint` | src/components/Tablero.tsx:29-35 | starting a sprint, then creating a company's first task in it, shows exactly that task |

## Left out

- Persistence goes unmodelled: `saveTareasToStorage`, `saveToLocalStorage` and the `localStorage`/`JSON.parse` preload. Both constructors take the preloaded state as a parameter.
- The `loading` and `error` fields of the task slice are left out, because no reducer writes them.
- Clock readings are opaque parameters, and their `toISOString`/`es-AR` formatting is not modelled. `Tareas.TareasSlice.ActualizarTareasSprint` uses one timestamp for every task of one call, while the source reads the clock once per changed task.
- Ids come from `Date.now()` in the forms, which are not part of this model. Ids are inputs.
- Numbers are modelled as mathematical integers. The model has no fractional or `NaN` values, so `NaN` never reaches `|| 0`, the story-point bands or the badge.
- Object spreads copy only the declared fields. Extra properties carried by a payload are not modelled.
- `tiemposRegistrados` is always present, as its type declares. The `|| []` in the reducers and the `?.` in the export apply only to a missing list, which the model cannot hold.
- From the drag-and-drop library, only its result enters the model. Droppable ids are the three column ids, so the destination is typed as a status, and the `as Tarea['estado']` cast cannot produce anything else.
- Spreadsheet writing, `saveAs`, `alert`, `window.confirm` and all React rendering and form state are not modelled. `Tablero.ExportarExcel` returns the rows, or nothing on the alert path.
- The card's assignee lookup and its impediment count are rendering only, and are not modelled.
- Sorting time entries by date, in `src/components/TareaModal.tsx`, is not part of this model.
- The creators and configuration slices, and the company records, are not part of this model.
- Immer's in-place writes to the draft state are modelled as the new value of the map. The model has no aliasing.

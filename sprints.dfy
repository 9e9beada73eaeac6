/**
 * The sprint slice: each company's ordered sprint list and the company's
 * active-sprint pointer, which finishing and deleting set to `null`
 * (`None` here; a company never written to has no entry at all). The four
 * reducers are methods of `SprintSlice`, specified by the transition
 * functions `Tras…`, which keep the invariant `PunteroValido`: a set pointer
 * names a sprint of that company's list.
 */
module Sprints {
  import opened Wrappers
  import opened Secuencias
  import opened Tipos

  datatype EstadoSprints = EstadoSprints(items: map<string, seq<Sprint>>,
                                         activeSprintsByCompany: map<string, Option<string>>)

  /** `sprints.find(s => s.id === id)`, as an index: the first sprint with the id, or -1. */
  function IndiceSprint(ss: seq<Sprint>, id: string): (k: int)
    ensures -1 <= k < |ss|
    ensures k == -1 <==> forall i :: 0 <= i < |ss| ==> ss[i].id != id
    ensures 0 <= k ==> ss[k].id == id && forall i :: 0 <= i < k ==> ss[i].id != id
  {
    var k := FirstIndex(Ids(ss, IdSprint), id);
    k
  }

  /** `activeSprintsByCompany[empresaId] === sprintId`. */
  predicate Apunta(ptr: map<string, Option<string>>, empresaId: string, sprintId: string) {
    empresaId in ptr && ptr[empresaId] == Some(sprintId)
  }

  /** A set pointer always names a sprint in that company's list. */
  ghost predicate PunteroValido(s: EstadoSprints) {
    forall e :: e in s.activeSprintsByCompany && s.activeSprintsByCompany[e].Some? ==>
      e in s.items && s.activeSprintsByCompany[e].value in Ids(s.items[e], IdSprint)
  }

  // ----- iniciarSprint -----

  /**
   * `iniciarSprint`: the sprint goes at the end of the company's list (created
   * when missing) and unconditionally becomes the company's active sprint.
   */
  function TrasIniciarSprint(s: EstadoSprints, empresaId: string, sprint: Sprint): (r: EstadoSprints)
    ensures r.items.Keys == s.items.Keys + {empresaId}
    ensures forall k :: k in s.items && k != empresaId ==> r.items[k] == s.items[k]
    ensures r.items[empresaId] == Lista(s.items, empresaId) + [sprint]
    ensures r.activeSprintsByCompany.Keys == s.activeSprintsByCompany.Keys + {empresaId}
    ensures r.activeSprintsByCompany[empresaId] == Some(sprint.id)
    ensures forall k :: k in s.activeSprintsByCompany && k != empresaId ==>
      r.activeSprintsByCompany[k] == s.activeSprintsByCompany[k]
  {
    EstadoSprints(s.items[empresaId := Lista(s.items, empresaId) + [sprint]],
                  s.activeSprintsByCompany[empresaId := Some(sprint.id)])
  }

  lemma IniciarConservaPuntero(s: EstadoSprints, empresaId: string, sprint: Sprint)
    requires PunteroValido(s)
    ensures PunteroValido(TrasIniciarSprint(s, empresaId, sprint))
  {
    var r := TrasIniciarSprint(s, empresaId, sprint);
    assert Ids(r.items[empresaId], IdSprint)[|r.items[empresaId]| - 1] == sprint.id;
  }

  // ----- finalizarSprint -----

  /**
   * `finalizarSprint`: a no-op when no sprint of the company has the id.
   * Otherwise the first such sprint is marked `finalizado` and its
   * retrospective and velocity are overwritten with the given ones, even when
   * those are absent; the pointer is cleared only if it named this id.
   */
  function TrasFinalizarSprint(s: EstadoSprints, empresaId: string, sprintId: string,
                               retrospectiva: Option<Retrospectiva>, velocidad: Option<int>): (r: EstadoSprints)
    ensures empresaId !in s.items || IndiceSprint(s.items[empresaId], sprintId) == -1 ==> r == s
    ensures r.items.Keys == s.items.Keys
    ensures forall k :: k in s.items && k != empresaId ==> r.items[k] == s.items[k]
    ensures empresaId in s.items && 0 <= IndiceSprint(s.items[empresaId], sprintId) ==>
      var ss, k := s.items[empresaId], IndiceSprint(s.items[empresaId], sprintId);
      && |r.items[empresaId]| == |ss|
      && (forall i :: 0 <= i < |ss| && i != k ==> r.items[empresaId][i] == ss[i])
      && r.items[empresaId][k].estado == Finalizado
      && r.items[empresaId][k].retrospectiva == retrospectiva
      && r.items[empresaId][k].velocidad == velocidad
      && r.items[empresaId][k].(estado := ss[k].estado, retrospectiva := ss[k].retrospectiva,
                                velocidad := ss[k].velocidad) == ss[k]
      && r.activeSprintsByCompany == (if Apunta(s.activeSprintsByCompany, empresaId, sprintId)
                                      then s.activeSprintsByCompany[empresaId := None]
                                      else s.activeSprintsByCompany)
  {
    if empresaId !in s.items then s
    else
      var ss := s.items[empresaId];
      var k := IndiceSprint(ss, sprintId);
      if k == -1 then s
      else
        var cerrado := ss[k].(estado := Finalizado, retrospectiva := retrospectiva, velocidad := velocidad);
        EstadoSprints(s.items[empresaId := ss[k := cerrado]],
                      if Apunta(s.activeSprintsByCompany, empresaId, sprintId)
                      then s.activeSprintsByCompany[empresaId := None]
                      else s.activeSprintsByCompany)
  }

  /** A pointer to a sprint means the sprint is found in the company's list. */
  lemma ApuntadoEsHallado(s: EstadoSprints, empresaId: string, sprintId: string)
    requires PunteroValido(s) && Apunta(s.activeSprintsByCompany, empresaId, sprintId)
    ensures empresaId in s.items && 0 <= IndiceSprint(s.items[empresaId], sprintId)
  {
  }

  lemma FinalizarConservaPuntero(s: EstadoSprints, empresaId: string, sprintId: string,
                                 retrospectiva: Option<Retrospectiva>, velocidad: Option<int>)
    requires PunteroValido(s)
    ensures PunteroValido(TrasFinalizarSprint(s, empresaId, sprintId, retrospectiva, velocidad))
  {
  }

  /** After finishing sprint `sprintId`, the company's pointer does not name it. */
  lemma FinalizarLiberaPuntero(s: EstadoSprints, empresaId: string, sprintId: string,
                               retrospectiva: Option<Retrospectiva>, velocidad: Option<int>)
    requires PunteroValido(s)
    ensures !Apunta(TrasFinalizarSprint(s, empresaId, sprintId, retrospectiva, velocidad).activeSprintsByCompany,
                    empresaId, sprintId)
  {
  }

  // ----- reabrirSprint -----

  /**
   * `reabrirSprint`: a no-op when no sprint of the company has the id.
   * Otherwise the first such sprint is marked `reabierto` (its retrospective
   * and velocity stay) and the company's pointer is set to it, whatever it
   * named before.
   */
  function TrasReabrirSprint(s: EstadoSprints, empresaId: string, sprintId: string): (r: EstadoSprints)
    ensures empresaId !in s.items || IndiceSprint(s.items[empresaId], sprintId) == -1 ==> r == s
    ensures r.items.Keys == s.items.Keys
    ensures forall k :: k in s.items && k != empresaId ==> r.items[k] == s.items[k]
    ensures empresaId in s.items && 0 <= IndiceSprint(s.items[empresaId], sprintId) ==>
      var ss, k := s.items[empresaId], IndiceSprint(s.items[empresaId], sprintId);
      && |r.items[empresaId]| == |ss|
      && (forall i :: 0 <= i < |ss| && i != k ==> r.items[empresaId][i] == ss[i])
      && r.items[empresaId][k] == ss[k].(estado := Reabierto)
      && r.activeSprintsByCompany == s.activeSprintsByCompany[empresaId := Some(sprintId)]
  {
    if empresaId !in s.items then s
    else
      var ss := s.items[empresaId];
      var k := IndiceSprint(ss, sprintId);
      if k == -1 then s
      else EstadoSprints(s.items[empresaId := ss[k := ss[k].(estado := Reabierto)]],
                         s.activeSprintsByCompany[empresaId := Some(sprintId)])
  }

  lemma ReabrirConservaPuntero(s: EstadoSprints, empresaId: string, sprintId: string)
    requires PunteroValido(s)
    ensures PunteroValido(TrasReabrirSprint(s, empresaId, sprintId))
  {
  }

  /**
   * Reopening while another sprint is active moves the pointer but does not
   * touch the other sprint: every sprint with the previously pointed id keeps
   * its status (an `activo` one stays `activo`, now unpointed).
   */
  lemma ReabrirNoTocaAnterior(s: EstadoSprints, empresaId: string, sprintId: string, previo: string, i: int)
    requires empresaId in s.items && 0 <= IndiceSprint(s.items[empresaId], sprintId)
    requires Apunta(s.activeSprintsByCompany, empresaId, previo) && previo != sprintId
    requires 0 <= i < |s.items[empresaId]| && s.items[empresaId][i].id == previo
    ensures var r := TrasReabrirSprint(s, empresaId, sprintId);
      && r.items[empresaId][i] == s.items[empresaId][i]
      && Apunta(r.activeSprintsByCompany, empresaId, sprintId)
      && !Apunta(r.activeSprintsByCompany, empresaId, previo)
  {
  }

  // ----- eliminarSprint -----

  /** The filter callback `s => s.id !== id`. */
  function OtroSprint(id: string): Sprint -> bool {
    (sp: Sprint) => sp.id != id
  }

  /**
   * `eliminarSprint`: a no-op when the company has no list. Otherwise the list
   * keeps, in order, exactly the sprints with another id (every copy of
   * each), and the pointer is
   * cleared iff it named this id.
   */
  function TrasEliminarSprint(s: EstadoSprints, empresaId: string, sprintId: string): (r: EstadoSprints)
    ensures empresaId !in s.items ==> r == s
    ensures r.items.Keys == s.items.Keys
    ensures forall k :: k in s.items && k != empresaId ==> r.items[k] == s.items[k]
    ensures empresaId in s.items ==>
      && (forall sp :: sp in r.items[empresaId] <==> sp in s.items[empresaId] && sp.id != sprintId)
      && (forall sp :: multiset(r.items[empresaId])[sp] ==
                       if sp.id != sprintId then multiset(s.items[empresaId])[sp] else 0)
      && IsSubsequence(r.items[empresaId], s.items[empresaId])
      && r.activeSprintsByCompany == (if Apunta(s.activeSprintsByCompany, empresaId, sprintId)
                                      then s.activeSprintsByCompany[empresaId := None]
                                      else s.activeSprintsByCompany)
  {
    if empresaId in s.items then
      FilterMembersAll(s.items[empresaId], OtroSprint(sprintId));
      FilterCuentaTodas(s.items[empresaId], OtroSprint(sprintId));
      FilterIsSubsequence(s.items[empresaId], OtroSprint(sprintId));
      EstadoSprints(s.items[empresaId := Filter(s.items[empresaId], OtroSprint(sprintId))],
                    if Apunta(s.activeSprintsByCompany, empresaId, sprintId)
                    then s.activeSprintsByCompany[empresaId := None]
                    else s.activeSprintsByCompany)
    else s
  }

  lemma EliminarConservaPuntero(s: EstadoSprints, empresaId: string, sprintId: string)
    requires PunteroValido(s)
    ensures PunteroValido(TrasEliminarSprint(s, empresaId, sprintId))
  {
  }

  /** After deleting sprint `sprintId`, the company's pointer does not name it. */
  lemma EliminarLiberaPuntero(s: EstadoSprints, empresaId: string, sprintId: string)
    requires PunteroValido(s)
    ensures !Apunta(TrasEliminarSprint(s, empresaId, sprintId).activeSprintsByCompany, empresaId, sprintId)
  {
  }

  // ----- the slice -----

  /** The mutable sprint state of the store. */
  class SprintSlice {
    var items: map<string, seq<Sprint>>
    var activeSprintsByCompany: map<string, Option<string>>

    /** The slice's invariant: a set pointer names a sprint of its company. */
    ghost predicate Valid()
      reads this
    {
      PunteroValido(Estado())
    }

    /** Both fields as one value. */
    function Estado(): EstadoSprints
      reads this
    {
      EstadoSprints(items, activeSprintsByCompany)
    }

    /** The state preloaded from storage, taken as given. */
    constructor (inicial: EstadoSprints)
      ensures Estado() == inicial
    {
      items := inicial.items;
      activeSprintsByCompany := inicial.activeSprintsByCompany;
    }

    method IniciarSprint(empresaId: string, sprint: Sprint)
      modifies this
      ensures Estado() == TrasIniciarSprint(old(Estado()), empresaId, sprint)
      ensures old(Valid()) ==> Valid()
    {
      if empresaId !in items {
        items := items[empresaId := []];
      }
      items := items[empresaId := items[empresaId] + [sprint]];
      activeSprintsByCompany := activeSprintsByCompany[empresaId := Some(sprint.id)];
      if old(Valid()) {
        IniciarConservaPuntero(old(Estado()), empresaId, sprint);
      }
    }

    method FinalizarSprint(empresaId: string, sprintId: string,
                           retrospectiva: Option<Retrospectiva>, velocidad: Option<int>)
      modifies this
      ensures Estado() == TrasFinalizarSprint(old(Estado()), empresaId, sprintId, retrospectiva, velocidad)
      ensures old(Valid()) ==> Valid()
    {
      if empresaId in items {
        var sprints := items[empresaId];
        var k := IndiceSprint(sprints, sprintId);
        if k != -1 {
          var sprint := sprints[k];
          sprint := sprint.(estado := Finalizado);
          sprint := sprint.(retrospectiva := retrospectiva);
          sprint := sprint.(velocidad := velocidad);
          items := items[empresaId := sprints[k := sprint]];
          if Apunta(activeSprintsByCompany, empresaId, sprintId) {
            activeSprintsByCompany := activeSprintsByCompany[empresaId := None];
          }
        }
      }
      if old(Valid()) {
        FinalizarConservaPuntero(old(Estado()), empresaId, sprintId, retrospectiva, velocidad);
      }
    }

    method ReabrirSprint(empresaId: string, sprintId: string)
      modifies this
      ensures Estado() == TrasReabrirSprint(old(Estado()), empresaId, sprintId)
      ensures old(Valid()) ==> Valid()
    {
      if empresaId in items {
        var sprints := items[empresaId];
        var k := IndiceSprint(sprints, sprintId);
        if k != -1 {
          items := items[empresaId := sprints[k := sprints[k].(estado := Reabierto)]];
          activeSprintsByCompany := activeSprintsByCompany[empresaId := Some(sprintId)];
        }
      }
      if old(Valid()) {
        ReabrirConservaPuntero(old(Estado()), empresaId, sprintId);
      }
    }

    method EliminarSprint(empresaId: string, sprintId: string)
      modifies this
      ensures Estado() == TrasEliminarSprint(old(Estado()), empresaId, sprintId)
      ensures old(Valid()) ==> Valid()
    {
      if empresaId in items {
        items := items[empresaId := Filter(items[empresaId], OtroSprint(sprintId))];
        if Apunta(activeSprintsByCompany, empresaId, sprintId) {
          activeSprintsByCompany := activeSprintsByCompany[empresaId := None];
        }
      }
      if old(Valid()) {
        EliminarConservaPuntero(old(Estado()), empresaId, sprintId);
      }
    }
  }
}

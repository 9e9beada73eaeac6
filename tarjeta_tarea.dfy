/**
 * The classification helpers of a task card: colour classes for status,
 * priority and story points, the total logged time and its hours/minutes
 * badge.
 */
module TarjetaTarea {
  import opened Wrappers
  import opened Tipos

  const TarjetaPendiente := "bg-red-50 hover:bg-red-100"
  const TarjetaEnProceso := "bg-yellow-50 hover:bg-yellow-100"
  const TarjetaTerminada := "bg-green-50 hover:bg-green-100"
  const TarjetaGris := "bg-gray-50 hover:bg-gray-100"

  /** True of the three status ids the board knows. */
  predicate EsEstadoConocido(estado: string) {
    exists e: Estado :: EstadoId(e) == estado
  }

  /**
   * Card background for a status. The parameter is the raw status string, so
   * that a value outside the three known ids falls to the gray default.
   */
  function ColorTarjeta(estado: string): (c: string)
    ensures c == TarjetaGris <==> !EsEstadoConocido(estado)
    ensures estado == EstadoId(Pendiente) ==> c == TarjetaPendiente
    ensures estado == EstadoId(EnProceso) ==> c == TarjetaEnProceso
    ensures estado == EstadoId(Terminada) ==> c == TarjetaTerminada
  {
    if estado == "pendiente" then assert EstadoId(Pendiente) == estado; TarjetaPendiente
    else if estado == "en-proceso" then assert EstadoId(EnProceso) == estado; TarjetaEnProceso
    else if estado == "terminada" then assert EstadoId(Terminada) == estado; TarjetaTerminada
    else
      assert forall e: Estado :: EstadoId(e) != estado;
      TarjetaGris
  }

  /** Distinct statuses get distinct card colours. */
  lemma ColorTarjetaInyectivo(e1: Estado, e2: Estado)
    requires e1 != e2
    ensures ColorTarjeta(EstadoId(e1)) != ColorTarjeta(EstadoId(e2))
  {
  }

  const PrioridadAlta := "bg-red-100 text-red-800"
  const PrioridadMedia := "bg-yellow-100 text-yellow-800"
  const PrioridadBaja := "bg-green-100 text-green-800"
  const PrioridadGris := "bg-gray-100 text-gray-800"

  /** True of the three priority ids. */
  predicate EsPrioridadConocida(p: Option<string>) {
    p.Some? && exists q: Prioridad :: PrioridadId(q) == p.value
  }

  /** Badge colour for an optional priority string; missing or unknown is gray. */
  function ColorPrioridad(prioridad: Option<string>): (c: string)
    ensures c == PrioridadGris <==> !EsPrioridadConocida(prioridad)
    ensures prioridad == Some(PrioridadId(Alta)) ==> c == PrioridadAlta
    ensures prioridad == Some(PrioridadId(Media)) ==> c == PrioridadMedia
    ensures prioridad == Some(PrioridadId(Baja)) ==> c == PrioridadBaja
  {
    if prioridad == Some("alta") then assert PrioridadId(Alta) == "alta"; PrioridadAlta
    else if prioridad == Some("media") then assert PrioridadId(Media) == "media"; PrioridadMedia
    else if prioridad == Some("baja") then assert PrioridadId(Baja) == "baja"; PrioridadBaja
    else
      assert forall q: Prioridad :: prioridad != Some(PrioridadId(q));
      PrioridadGris
  }

  const PuntosGris := "bg-gray-100 text-gray-800"
  const PuntosVerde := "bg-green-100 text-green-800"
  const PuntosAmarillo := "bg-yellow-100 text-yellow-800"
  const PuntosNaranja := "bg-orange-100 text-orange-800"
  const PuntosRojo := "bg-red-100 text-red-800"

  /**
   * Badge colour for optional story points. Missing or zero (falsy) is gray;
   * otherwise the first bound the value does not exceed picks the band, so a
   * negative value lands in the green band.
   */
  function ColorStoryPoints(points: Option<int>): (c: string)
    ensures c == PuntosGris <==> points.None? || points.value == 0
    ensures points.Some? && (1 <= points.value <= 3 || points.value < 0) ==> c == PuntosVerde
    ensures points.Some? && 4 <= points.value <= 5 ==> c == PuntosAmarillo
    ensures points.Some? && 6 <= points.value <= 8 ==> c == PuntosNaranja
    ensures points.Some? && 8 < points.value ==> c == PuntosRojo
  {
    if points.None? || points.value == 0 then PuntosGris
    else if points.value <= 3 then PuntosVerde
    else if points.value <= 5 then PuntosAmarillo
    else if points.value <= 8 then PuntosNaranja
    else PuntosRojo
  }

  /** The position of a story-point colour on the gray-green-yellow-orange-red scale. */
  function RangoStoryPoints(c: string): nat {
    if c == PuntosVerde then 1
    else if c == PuntosAmarillo then 2
    else if c == PuntosNaranja then 3
    else if c == PuntosRojo then 4
    else 0
  }

  /** More positive story points never give a lower band. */
  lemma ColorStoryPointsMonotono(p: int, q: int)
    requires 0 < p <= q
    ensures RangoStoryPoints(ColorStoryPoints(Some(p))) <= RangoStoryPoints(ColorStoryPoints(Some(q)))
    ensures RangoStoryPoints(ColorStoryPoints(Some(p))) >= 1
  {
  }

  /**
   * `tiemposRegistrados.reduce((acc, curr) => acc + curr.minutos, 0)`, folded
   * from the left; it equals the sum taken from the head.
   */
  function TiempoTotal(ts: seq<TiempoRegistrado>): (total: int)
    ensures |ts| == 0 ==> total == 0
    ensures |ts| > 0 ==> total == ts[0].minutos + TiempoTotal(ts[1..])
  {
    if |ts| == 0 then 0
    else
      assert |ts| > 1 ==> ts[..|ts| - 1][1..] == ts[1..][..|ts| - 2];
      TiempoTotal(ts[..|ts| - 1]) + ts[|ts| - 1].minutos
  }

  /** Logging one more entry adds exactly its minutes. */
  lemma TiempoTotalAgregar(ts: seq<TiempoRegistrado>, x: TiempoRegistrado)
    ensures TiempoTotal(ts + [x]) == TiempoTotal(ts) + x.minutos
  {
  }

  /** The total of a concatenation is the sum of the totals. */
  lemma {:induction false} TiempoTotalConcat(a: seq<TiempoRegistrado>, b: seq<TiempoRegistrado>)
    ensures TiempoTotal(a + b) == TiempoTotal(a) + TiempoTotal(b)
    decreases |b|
  {
    if |b| == 0 {
      assert a + b == a;
    } else {
      var init := b[..|b| - 1];
      assert a + b == (a + init) + [b[|b| - 1]];
      assert b == init + [b[|b| - 1]];
      TiempoTotalConcat(a, init);
      TiempoTotalAgregar(a + init, b[|b| - 1]);
      TiempoTotalAgregar(init, b[|b| - 1]);
    }
  }

  /** With no negative entries the total is no less than any single entry. */
  lemma {:induction false} TiempoTotalCota(ts: seq<TiempoRegistrado>, i: nat)
    requires forall j :: 0 <= j < |ts| ==> ts[j].minutos >= 0
    requires i < |ts|
    ensures TiempoTotal(ts) >= ts[i].minutos >= 0
    decreases |ts|
  {
    var init := ts[..|ts| - 1];
    TiempoTotalNoNegativo(init);
    if i < |ts| - 1 {
      TiempoTotalCota(init, i);
    }
  }

  /** With no negative entries the total is not negative. */
  lemma {:induction false} TiempoTotalNoNegativo(ts: seq<TiempoRegistrado>)
    requires forall j :: 0 <= j < |ts| ==> ts[j].minutos >= 0
    ensures TiempoTotal(ts) >= 0
    decreases |ts|
  {
    if |ts| > 0 {
      TiempoTotalNoNegativo(ts[..|ts| - 1]);
    }
  }

  /** The `{h}h {m}m` badge of a card. */
  datatype Duracion = Duracion(horas: int, minutos: int)

  /**
   * The time badge: absent unless the total is positive, otherwise
   * `Math.floor(total / 60)` hours and `total % 60` minutes. For a positive
   * total JavaScript's floor and remainder agree with Dafny's `/` and `%`.
   */
  function Insignia(total: int): (r: Option<Duracion>)
    ensures r.Some? <==> total > 0
    ensures r.Some? ==> r.value.horas * 60 + r.value.minutos == total
    ensures r.Some? ==> 0 <= r.value.minutos < 60 && 0 <= r.value.horas
  {
    if total > 0 then Some(Duracion(total / 60, total % 60)) else None
  }

  /** The badge is the only hours/minutes split of the total with minutes below 60. */
  lemma InsigniaUnica(total: int, h: int, m: int)
    requires total > 0 && h * 60 + m == total && 0 <= m < 60
    ensures Insignia(total) == Some(Duracion(h, m))
  {
  }
}

/** Calendar dates and timestamps. A date (Django `DateField`) is a whole
    number of days from a fixed epoch; a timestamp (`DateTimeField`) is a
    number of microseconds from midnight of that same epoch day, which is the
    resolution of Python's `datetime`. One time zone is assumed throughout. */
module Tiempo {

  type Fecha = int
  type FechaHora = int

  const MICROSEGUNDOS_POR_MINUTO: int := 60_000_000
  const MICROSEGUNDOS_POR_DIA: int := 24 * 60 * MICROSEGUNDOS_POR_MINUTO

  /** The calendar day a timestamp falls on (`datetime.date()`). */
  function FechaDe(t: FechaHora): (d: Fecha)
    ensures Medianoche(d) <= t < Medianoche(d + 1)
  {
    t / MICROSEGUNDOS_POR_DIA
  }

  /** The timestamp a plain date becomes when it is compared with a
      timestamp: midnight at the start of that day. */
  function Medianoche(d: Fecha): FechaHora
  {
    d * MICROSEGUNDOS_POR_DIA
  }

  /** Comparing a timestamp with the midnight that starts a day is the same
      as comparing its calendar day with that day. */
  lemma DesdeMedianoche(t: FechaHora, d: Fecha)
    ensures t >= Medianoche(d) <==> FechaDe(t) >= d
  {
    var k := FechaDe(t);
    if k >= d {
      MedianocheMonotona(d, k);
    } else {
      MedianocheMonotona(k + 1, d);
    }
  }

  lemma MedianocheMonotona(a: Fecha, b: Fecha)
    requires a <= b
    ensures Medianoche(a) <= Medianoche(b)
  {
  }
}

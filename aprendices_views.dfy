/** The learner views (`aprendices/views.py`): the searchable list, ordered
    by surname and then name, and the counts of the start page. */
module AprendicesViews {
  import opened Wrappers
  import opened Secuencias
  import opened AprendicesForms

  /** `order_by('apellido', 'nombre')`: by surname, and by name between
      equal surnames. */
  predicate PorApellidoNombre(a: Aprendiz, b: Aprendiz)
  {
    if a.apellido == b.apellido then LexLe(a.nombre, b.nombre) else LexLe(a.apellido, b.apellido)
  }

  lemma PorApellidoNombreOrdena()
    ensures TotalPreorder(PorApellidoNombre)
  {
    forall a: Aprendiz, b: Aprendiz ensures PorApellidoNombre(a, b) || PorApellidoNombre(b, a) {
      LexLeTotal(a.apellido, b.apellido);
      LexLeTotal(a.nombre, b.nombre);
    }
    forall a: Aprendiz, b: Aprendiz, c: Aprendiz | PorApellidoNombre(a, b) && PorApellidoNombre(b, c)
      ensures PorApellidoNombre(a, c)
    {
      if a.apellido == b.apellido && b.apellido == c.apellido {
        LexLeTransitive(a.nombre, b.nombre, c.nombre);
      } else if a.apellido == b.apellido {
      } else if b.apellido == c.apellido {
      } else {
        LexLeTransitive(a.apellido, b.apellido, c.apellido);
        if a.apellido == c.apellido {
          LexLeAntisymmetric(a.apellido, b.apellido);
        }
      }
    }
  }

  /** The search condition: the query occurs, ignoring case, in the name,
      the surname, the document or the programme (a null programme matches
      nothing). */
  predicate Coincide(a: Aprendiz, q: string)
  {
    IContains(a.nombre, q) || IContains(a.apellido, q) || IContains(a.documentoIdentidad, q)
    || (a.programa.Some? && IContains(a.programa.value, q))
  }

  /** `lista_aprendices` for query `q`: every learner when `q` is empty,
      otherwise the matching ones; ordered by surname and name. */
  function Buscar(aprendices: seq<Aprendiz>, q: string): (r: seq<Aprendiz>)
    ensures |r| <= |aprendices|
    ensures q == "" ==> multiset(r) == multiset(aprendices)
    ensures q != "" ==> forall a :: multiset(r)[a] == if Coincide(a, q) then multiset(aprendices)[a] else 0
    ensures forall a :: a in r <==> a in aprendices && (q == "" || Coincide(a, q))
    ensures forall i, j :: 0 <= i < j < |r| ==> PorApellidoNombre(r[i], r[j])
  {
    var candidatos := if q == "" then aprendices else Filter(aprendices, a => Coincide(a, q));
    var r := Sort(candidatos, PorApellidoNombre);
    assert |multiset(r)| == |r|;
    PorApellidoNombreOrdena();
    SortSorted(candidatos, PorApellidoNombre);
    SortMembers(candidatos, PorApellidoNombre);
    assert Sorted(r, PorApellidoNombre);
    r
  }

  /** An empty query would match every learner anyway, so listing all of
      them is the same as searching for the empty text. */
  lemma BusquedaVaciaCoincide(a: Aprendiz)
    ensures Coincide(a, "")
  {
    EmptyContained(a.nombre);
  }

  /** The list page: the list and its length. */
  datatype Listado = Listado(lista: seq<Aprendiz>, total: nat)

  function Aprendices(aprendices: seq<Aprendiz>, q: string): (r: Listado)
    ensures r.lista == Buscar(aprendices, q) && r.total == |r.lista|
    ensures r.total <= |aprendices|
    ensures q == "" ==> r.total == |aprendices|
  {
    var lista := Buscar(aprendices, q);
    Listado(lista, |lista|)
  }

  predicate TienePrograma(a: Aprendiz)
  {
    a.programa.Some? && a.programa.value != ""
  }

  /** A learner's programme, "" when it has none. */
  function ProgramaDe(a: Aprendiz): string
  {
    if a.programa.Some? then a.programa.value else ""
  }

  /** The programme of each learner that has one, in store order. */
  function Programas(aprendices: seq<Aprendiz>): (r: seq<string>)
    ensures |r| <= |aprendices|
    ensures forall p :: p in r <==> exists a :: a in aprendices && TienePrograma(a) && a.programa.value == p
  {
    if aprendices == [] then []
    else
      var resto := Programas(aprendices[1..]);
      assert forall a :: a in aprendices <==> a == aprendices[0] || a in aprendices[1..];
      (if TienePrograma(aprendices[0]) then [aprendices[0].programa.value] else []) + resto
  }

  /** The programme list has one entry per learner with a programme: the
      i-th entry is the programme of the i-th learner the filter keeps. */
  lemma {:induction false} ProgramasSonLosFiltrados(aprendices: seq<Aprendiz>)
    ensures |Programas(aprendices)| == |Filter(aprendices, TienePrograma)|
    ensures forall i :: 0 <= i < |Programas(aprendices)| ==>
      Programas(aprendices)[i] == ProgramaDe(Filter(aprendices, TienePrograma)[i])
  {
    if aprendices != [] {
      var resto := aprendices[1..];
      ProgramasSonLosFiltrados(resto);
      var cabeza := if TienePrograma(aprendices[0]) then [aprendices[0].programa.value] else [];
      var filtroCabeza := if TienePrograma(aprendices[0]) then [aprendices[0]] else [];
      assert Programas(aprendices) == cabeza + Programas(resto);
      assert Filter(aprendices, TienePrograma) == filtroCabeza + Filter(resto, TienePrograma);
      assert |cabeza| == |filtroCabeza|;
      forall i | 0 <= i < |Programas(aprendices)|
        ensures Programas(aprendices)[i] == ProgramaDe(Filter(aprendices, TienePrograma)[i])
      {
        if i >= |cabeza| {
          assert Programas(aprendices)[i] == Programas(resto)[i - |cabeza|];
          assert Filter(aprendices, TienePrograma)[i] == Filter(resto, TienePrograma)[i - |cabeza|];
        }
      }
    }
  }

  /** The start page's counts. */
  datatype Estadisticas = Estadisticas(total: nat, conPrograma: nat, programasUnicos: nat)

  /** `inicio`: all learners, those with a non-null non-empty programme, and
      the distinct programmes among them. */
  function Inicio(aprendices: seq<Aprendiz>): (r: Estadisticas)
    ensures r.total == |aprendices|
    ensures r.conPrograma == |Filter(aprendices, TienePrograma)| && r.conPrograma <= r.total
    ensures r.programasUnicos == |set p | p in Programas(aprendices)|
    ensures r.programasUnicos <= r.conPrograma
    ensures r.conPrograma > 0 ==> r.programasUnicos > 0
  {
    var programas := Programas(aprendices);
    ProgramasSonLosFiltrados(aprendices);
    var unicos := set p | p in programas;
    DistinctAtMostLength(programas);
    if programas != [] then
      assert programas[0] in unicos;
      assert |unicos| != 0;
      Estadisticas(|aprendices|, |programas|, |unicos|)
    else
      Estadisticas(|aprendices|, |programas|, |unicos|)
  }
}

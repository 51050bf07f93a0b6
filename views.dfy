/**
 * The request rules of the equipo views: the required-field check shared by
 * create and edit, the normalisation of the optional price and dates, the
 * serial-number rule of an edit, the response of the spreadsheet import,
 * and the colour and icon the dashboard gives each state.
 */
module Views {
  import opened Wrappers
  import opened Text
  import opened Models
  import opened Importer

  // ---------------------------------------------------------------------------
  // Request bodies
  // ---------------------------------------------------------------------------

  /** A value of the decoded JSON body, as far as the views look at it. */
  datatype Json = JNull | JBool(b: bool) | JNum(x: real) | JStr(s: string)

  /** Python truthiness: null, false, zero and the empty string are false. */
  predicate Truthy(j: Json) {
    match j
    case JNull => false
    case JBool(b) => b
    case JNum(x) => x != 0.0
    case JStr(s) => s != ""
  }

  /** The decoded body: field name to value. */
  type Body = map<string, Json>

  /** `data.get(campo)`. */
  function Get(data: Body, campo: string): Option<Json> {
    if campo in data then Some(data[campo]) else None
  }

  /** `data.get(campo)` is truthy. */
  predicate Presente(data: Body, campo: string) {
    campo in data && Truthy(data[campo])
  }

  /**
   * The conversions the database layer applies when an equipo is saved. Each
   * answers None for a value the database refuses, which makes the view
   * answer with its internal-error response.
   */
  datatype Conversiones = Conversiones(
    aTexto: Json -> Option<string>,   // a text column
    aFecha: Json -> Option<Date>,     // a date column
    aClave: Json -> Option<nat>,      // a foreign-key id
    aReal: string -> Option<real>)    // `float(s)`; None where it raises ValueError

  /** A response: success with a message, a 400 with an error, or the 500 of an exception. */
  datatype Respuesta = Hecho(mensaje: string) | Rechazo(error: string) | FalloInterno

  // ---------------------------------------------------------------------------
  // Required fields
  // ---------------------------------------------------------------------------

  const Requeridos: seq<string> := ["nombre", "tipo", "area", "estado"]

  /** The error naming a missing required field. */
  function Requerido(campo: string): string {
    "El campo " + campo + " es requerido"
  }

  /** The position of the first field of `campos` whose value is missing or falsy. */
  function FaltaPrimero(data: Body, campos: seq<string>): (r: Option<nat>)
    ensures r.None? <==> forall i :: 0 <= i < |campos| ==> Presente(data, campos[i])
    ensures r.Some? ==> r.value < |campos| && !Presente(data, campos[r.value]) &&
                        forall j :: 0 <= j < r.value ==> Presente(data, campos[j])
  {
    if campos == [] then None
    else if !Presente(data, campos[0]) then Some(0)
    else match FaltaPrimero(data, campos[1..])
      case None => None
      case Some(i) => Some(i + 1)
  }

  /** The first missing field is the one a left-to-right scan stops at. */
  lemma FaltaPrimeroEs(data: Body, campos: seq<string>, k: nat)
    requires k <= |campos|
    requires forall j :: 0 <= j < k ==> Presente(data, campos[j])
    requires k < |campos| ==> !Presente(data, campos[k])
    ensures FaltaPrimero(data, campos) == if k < |campos| then Some(k) else None
  {
  }

  /** The 400 error of the required-field check, if any. */
  function ErrorRequerido(data: Body): Option<string> {
    match FaltaPrimero(data, Requeridos)
    case None => None
    case Some(i) => Some(Requerido(Requeridos[i]))
  }

  /** The loop over the required fields of create and edit, returning at the first falsy one. */
  method CampoFaltante(data: Body) returns (error: Option<string>)
    ensures error == ErrorRequerido(data)
  {
    for k := 0 to |Requeridos|
      invariant forall j :: 0 <= j < k ==> Presente(data, Requeridos[j])
    {
      var campo := Requeridos[k];
      if !(campo in data && Truthy(data[campo])) {
        FaltaPrimeroEs(data, Requeridos, k);
        return Some(Requerido(campo));
      }
    }
    FaltaPrimeroEs(data, Requeridos, |Requeridos|);
    return None;
  }

  // ---------------------------------------------------------------------------
  // Optional fields
  // ---------------------------------------------------------------------------

  /**
   * The price branch: missing, null or "" is null; a truthy value goes
   * through `float`, whose failure is silently null; any other falsy value
   * (0, false) is kept and stored as 0.
   */
  function NormalizarPrecio(v: Option<Json>, aReal: string -> Option<real>): (r: Option<real>)
    ensures v.None? || v == Some(JNull) || v == Some(JStr("")) ==> r.None?
    ensures v.Some? && v.value.JStr? && v.value.s != "" ==> r == aReal(v.value.s)
    ensures v.Some? && v.value.JNum? ==> r == Some(v.value.x)
  {
    match v
    case None => None
    case Some(JNull) => None
    case Some(JStr(s)) => if s == "" then None else aReal(s)
    case Some(JNum(x)) => Some(x)
    case Some(JBool(b)) => Some(if b then 1.0 else 0.0)
  }

  /** The date branch: missing, null or "" is null; anything else is kept for the date column. */
  function NormalizarFecha(v: Option<Json>): (r: Option<Json>)
    ensures r.None? <==> v.None? || v == Some(JNull) || v == Some(JStr(""))
    ensures r.Some? ==> r == v
  {
    match v
    case None => None
    case Some(JNull) => None
    case Some(JStr(s)) => if s == "" then None else v
    case Some(_) => v
  }

  /** A text field read with `data.get(campo, '')`. */
  function TextoDe(data: Body, campo: string, conv: Conversiones): Option<string> {
    if campo in data then conv.aTexto(data[campo]) else Some("")
  }

  /** A date field after normalisation: null, a date, or None when the date column refuses it. */
  function FechaDe(data: Body, campo: string, conv: Conversiones): Option<Option<Date>> {
    match NormalizarFecha(Get(data, campo))
    case None => Some(None)
    case Some(j) =>
      match conv.aFecha(j)
      case None => None
      case Some(d) => Some(Some(d))
  }

  /** A foreign-key field. */
  function ClaveDe(data: Body, campo: string, conv: Conversiones): Option<nat> {
    if campo in data then conv.aClave(data[campo]) else None
  }

  /**
   * The columns a create or edit request sets, with an empty serial and no
   * maintenance date; None when the database would refuse one of them.
   */
  function Pedido(data: Body, conv: Conversiones): Option<Datos> {
    var nombre, tipo := TextoDe(data, "nombre", conv), TextoDe(data, "tipo", conv);
    var marca, modelo := TextoDe(data, "marca", conv), TextoDe(data, "modelo", conv);
    var proveedor, observacion := TextoDe(data, "proveedor", conv), TextoDe(data, "observacion", conv);
    var compra, garantia := FechaDe(data, "fecha_compra", conv), FechaDe(data, "garantia_hasta", conv);
    var area, estado := ClaveDe(data, "area", conv), ClaveDe(data, "estado", conv);
    if nombre.None? || tipo.None? || marca.None? || modelo.None? || proveedor.None? || observacion.None? ||
       compra.None? || garantia.None? || area.None? || estado.None? then None
    else Some(Datos(nombre.value, tipo.value, "", observacion.value, marca.value, modelo.value,
                    NormalizarPrecio(Get(data, "precio"), conv.aReal), proveedor.value,
                    compra.value, garantia.value, None, area.value, estado.value))
  }

  /** Two bodies whose fields read the same give the same request. */
  lemma PedidoCongruente(a: Body, b: Body, conv: Conversiones)
    requires forall c :: c in ["nombre", "tipo", "marca", "modelo", "proveedor", "observacion"] ==>
               TextoDe(a, c, conv) == TextoDe(b, c, conv)
    requires FechaDe(a, "fecha_compra", conv) == FechaDe(b, "fecha_compra", conv)
    requires FechaDe(a, "garantia_hasta", conv) == FechaDe(b, "garantia_hasta", conv)
    requires ClaveDe(a, "area", conv) == ClaveDe(b, "area", conv) && ClaveDe(a, "estado", conv) == ClaveDe(b, "estado", conv)
    requires NormalizarPrecio(Get(a, "precio"), conv.aReal) == NormalizarPrecio(Get(b, "precio"), conv.aReal)
    ensures Pedido(a, conv) == Pedido(b, conv)
  {
    assert "nombre" in ["nombre", "tipo", "marca", "modelo", "proveedor", "observacion"];
    assert "tipo" in ["nombre", "tipo", "marca", "modelo", "proveedor", "observacion"];
    assert "marca" in ["nombre", "tipo", "marca", "modelo", "proveedor", "observacion"];
    assert "modelo" in ["nombre", "tipo", "marca", "modelo", "proveedor", "observacion"];
    assert "proveedor" in ["nombre", "tipo", "marca", "modelo", "proveedor", "observacion"];
    assert "observacion" in ["nombre", "tipo", "marca", "modelo", "proveedor", "observacion"];
  }

  /** A price that `float` rejects leaves the request exactly as if no price had been sent. */
  lemma PrecioInvalidoEsNulo(data: Body, conv: Conversiones, s: string)
    requires s != "" && conv.aReal(s).None?
    ensures Pedido(data["precio" := JStr(s)], conv) == Pedido(data - {"precio"}, conv)
    ensures Pedido(data["precio" := JStr(s)], conv).Some? ==> Pedido(data["precio" := JStr(s)], conv).value.precio.None?
  {
    var a, b := data["precio" := JStr(s)], data - {"precio"};
    assert forall campo :: campo != "precio" ==> Get(a, campo) == Get(b, campo);
    PedidoCongruente(a, b, conv);
  }

  /** An empty date leaves the request exactly as if no date had been sent. */
  lemma FechaVaciaEsNula(data: Body, conv: Conversiones, campo: string)
    requires campo == "fecha_compra" || campo == "garantia_hasta"
    ensures Pedido(data[campo := JStr("")], conv) == Pedido(data - {campo}, conv)
  {
    var a, b := data[campo := JStr("")], data - {campo};
    assert forall c :: c != campo ==> Get(a, c) == Get(b, c);
    assert FechaDe(a, campo, conv) == FechaDe(b, campo, conv) == Some(None);
    PedidoCongruente(a, b, conv);
  }

  /** The serial a create request gives: a falsy value leaves it to `save`. */
  function SerieDe(data: Body, conv: Conversiones): Option<string> {
    if Presente(data, "numero_serie") then conv.aTexto(data["numero_serie"]) else Some("")
  }

  /** The columns `save` writes for `d`: an empty serial becomes `NextSerial` of its type (the corrected rule). */
  function Alta(d: Datos, serials: seq<string>): Datos {
    d.(numeroSerie := if d.numeroSerie == "" then NextSerial(serials, d.tipo) else d.numeroSerie)
  }

  // ---------------------------------------------------------------------------
  // crear_equipo
  // ---------------------------------------------------------------------------

  /** The columns a create request asks for, serial included. */
  function Creacion(data: Body, conv: Conversiones): Option<Datos> {
    match Pedido(data, conv)
    case None => None
    case Some(d) =>
      match SerieDe(data, conv)
      case None => None
      case Some(s) => Some(d.(numeroSerie := s))
  }

  /**
   * `crear_equipo`: a request missing a required field is answered 400 and
   * stores nothing; otherwise the equipo is created through `save`, and any
   * value the database refuses gives the 500 response and stores nothing.
   */
  method CrearEquipo(db: Database, data: Body, conv: Conversiones) returns (resp: Respuesta)
    requires db.Valid()
    modifies db
    ensures db.Valid() && db.areas == old(db.areas) && db.estados == old(db.estados)
    ensures ErrorRequerido(data).Some? ==> resp == Rechazo(ErrorRequerido(data).value)
    ensures !resp.Hecho? ==> db.equipos == old(db.equipos)
    ensures resp.Hecho? ==>
              resp.mensaje == "Equipo creado exitosamente" && ErrorRequerido(data).None? && Creacion(data, conv).Some? &&
              db.equipos == old(db.equipos) + [Fila(old(db.nextId), Alta(Creacion(data, conv).value, old(db.Serials())))]
    ensures (ErrorRequerido(data).None? && Creacion(data, conv).Some? &&
             Admissible(old(db.equipos), None, Alta(Creacion(data, conv).value, old(db.Serials())), |db.areas|, |db.estados|))
              ==> resp.Hecho?
  {
    var falta := CampoFaltante(data);
    if falta.Some? {
      return Rechazo(falta.value);
    }
    var d := Creacion(data, conv);
    if d.None? {
      return FalloInterno;
    }
    ghost var filas, next := db.equipos, db.nextId;
    ghost var serials := db.Serials();
    var e := new Equipo(d.value);
    var saved := e.Save(db);
    if !saved {
      return FalloInterno;
    }
    StoredAppends(filas, Fila(next, e.Snapshot()), next, |db.areas|, |db.estados|);
    return Hecho("Equipo creado exitosamente");
  }

  // ---------------------------------------------------------------------------
  // editar_equipo
  // ---------------------------------------------------------------------------

  /** The edit asks for a new serial: a truthy value other than the current serial. */
  predicate CambiaSerie(data: Body, actual: string) {
    Presente(data, "numero_serie") && data["numero_serie"] != JStr(actual)
  }

  /** Another equipo than `id` holds serial `s`. */
  predicate SerieOcupada(filas: seq<Fila>, s: string, id: nat) {
    exists i :: 0 <= i < |filas| && filas[i].datos.numeroSerie == s && filas[i].id != id
  }

  const SerieExiste: string := "El n\U{FA}mero de serie ya existe"

  /** The serial an edit keeps or asks for; None when the database refuses the requested value. */
  function SerieEditada(data: Body, actual: string, conv: Conversiones): Option<string> {
    if CambiaSerie(data, actual) then conv.aTexto(data["numero_serie"]) else Some(actual)
  }

  /** The columns an edit of stored row `f` asks for; its maintenance date is kept. */
  function Edicion(f: Fila, data: Body, conv: Conversiones): Option<Datos> {
    Editar(f, Pedido(data, conv), SerieEditada(data, f.datos.numeroSerie, conv))
  }

  /** The requested columns `d` over stored row `f`, with serial `s`; None if either is refused. */
  function Editar(f: Fila, d: Option<Datos>, s: Option<string>): Option<Datos> {
    if d.None? || s.None? then None
    else Some(d.value.(numeroSerie := s.value, fechaMantenimiento := f.datos.fechaMantenimiento))
  }

  /** The serial changes only when a new, truthy, different value is supplied. */
  lemma SerieEditadaSpec(data: Body, actual: string, conv: Conversiones)
    ensures !CambiaSerie(data, actual) ==> SerieEditada(data, actual, conv) == Some(actual)
    ensures SerieEditada(data, actual, conv).Some? && SerieEditada(data, actual, conv).value != actual ==>
              CambiaSerie(data, actual) && "numero_serie" in data && Truthy(data["numero_serie"])
    ensures !Presente(data, "numero_serie") ==> SerieEditada(data, actual, conv) == Some(actual)
  {
  }

  /**
   * The part of `editar_equipo` after the checks: the fields of the loaded
   * equipo `e` (stored as `db.equipos[i]`) are assigned; a requested serial
   * that another equipo holds is answered 400 before anything is saved;
   * otherwise the equipo is saved.
   */
  method Actualizar(db: Database, e: Equipo, ghost i: nat, d: Option<Datos>, data: Body, conv: Conversiones)
    returns (resp: Respuesta)
    requires db.Valid() && i < |db.equipos|
    requires e.id == Some(db.equipos[i].id) && e.Snapshot() == db.equipos[i].datos
    modifies db, e
    ensures db.Valid() && db.areas == old(db.areas) && db.estados == old(db.estados)
    ensures !resp.Hecho? ==> db.equipos == old(db.equipos)
    ensures var f := old(db.equipos)[i];
            (CambiaSerie(data, f.datos.numeroSerie) && SerieEditada(data, f.datos.numeroSerie, conv).Some? &&
             SerieOcupada(old(db.equipos), SerieEditada(data, f.datos.numeroSerie, conv).value, f.id))
              ==> resp == Rechazo(SerieExiste)
    ensures resp.Hecho? ==>
              var f := old(db.equipos)[i];
              var n := Editar(f, d, SerieEditada(data, f.datos.numeroSerie, conv));
              resp.mensaje == "Equipo actualizado exitosamente" && n.Some? &&
              db.equipos == Stored(old(db.equipos), Fila(f.id, Alta(n.value, old(db.Serials()))))
    ensures var f := old(db.equipos)[i];
            var n := Editar(f, d, SerieEditada(data, f.datos.numeroSerie, conv));
            (n.Some? && n.value.numeroSerie != "" &&
             Admissible(old(db.equipos), Some(f.id), Alta(n.value, old(db.Serials())), |db.areas|, |db.estados|))
              ==> resp.Hecho?
  {
    ghost var f := db.equipos[i];
    if d.Some? {
      e.Asignar(d.value);
    }
    var rechazo := RevisarSerie(db, e, data, conv);
    if rechazo.Some? {
      return rechazo.value;
    }
    if d.None? {
      return FalloInterno;
    }
    resp := Guardar(db, e);
  }

  /**
   * The serial rule of an edit: a truthy requested serial other than the
   * current one is refused with 400 when another equipo holds it, and is
   * assigned otherwise; without such a request the serial stays.
   */
  method RevisarSerie(db: Database, e: Equipo, data: Body, conv: Conversiones) returns (r: Option<Respuesta>)
    requires e.id.Some?
    modifies e
    ensures e.id == old(e.id)
    ensures r.None? ==> SerieEditada(data, old(e.numeroSerie), conv).Some? &&
                        e.Snapshot() == old(e.Snapshot()).(numeroSerie := SerieEditada(data, old(e.numeroSerie), conv).value)
    ensures r.Some? ==> e.Snapshot() == old(e.Snapshot()) &&
                        ((r.value == FalloInterno && SerieEditada(data, old(e.numeroSerie), conv).None?) ||
                         (r.value == Rechazo(SerieExiste) && CambiaSerie(data, old(e.numeroSerie))))
    ensures (CambiaSerie(data, old(e.numeroSerie)) && SerieEditada(data, old(e.numeroSerie), conv).Some? &&
             SerieOcupada(db.equipos, SerieEditada(data, old(e.numeroSerie), conv).value, e.id.value))
              ==> r == Some(Rechazo(SerieExiste))
    ensures r == Some(Rechazo(SerieExiste)) ==>
              SerieEditada(data, old(e.numeroSerie), conv).Some? &&
              SerieOcupada(db.equipos, SerieEditada(data, old(e.numeroSerie), conv).value, e.id.value)
  {
    var id := e.id.value;
    if "numero_serie" in data && Truthy(data["numero_serie"]) && data["numero_serie"] != JStr(e.numeroSerie) {
      var s := conv.aTexto(data["numero_serie"]);
      if s.None? {
        return Some(FalloInterno);
      }
      if exists k :: 0 <= k < |db.equipos| && db.equipos[k].datos.numeroSerie == s.value && db.equipos[k].id != id {
        return Some(Rechazo(SerieExiste));
      }
      e.numeroSerie := s.value;
    }
    return None;
  }

  /** `equipo.save()` and the success message; a write the database refuses is the 500 response. */
  method Guardar(db: Database, e: Equipo) returns (resp: Respuesta)
    requires db.Valid() && e.id.Some?
    modifies db, e
    ensures db.Valid() && db.areas == old(db.areas) && db.estados == old(db.estados)
    ensures resp == Hecho("Equipo actualizado exitosamente") || resp == FalloInterno
    ensures resp.Hecho? <==> Admissible(old(db.equipos), old(e.id), Alta(old(e.Snapshot()), old(db.Serials())), |db.areas|, |db.estados|)
    ensures !resp.Hecho? ==> db.equipos == old(db.equipos)
    ensures resp.Hecho? ==> db.equipos == Stored(old(db.equipos), Fila(old(e.id).value, Alta(old(e.Snapshot()), old(db.Serials()))))
  {
    var saved := e.Save(db);
    if !saved {
      return FalloInterno;
    }
    return Hecho("Equipo actualizado exitosamente");
  }

  /**
   * `editar_equipo`: an unknown key gives the 500 response (the handler
   * catches the 404); a missing required field is answered 400; then the
   * equipo is updated as `Actualizar` says.
   */
  method EditarEquipo(db: Database, id: nat, data: Body, conv: Conversiones) returns (resp: Respuesta)
    requires db.Valid()
    modifies db
    ensures db.Valid() && db.areas == old(db.areas) && db.estados == old(db.estados)
    ensures !resp.Hecho? ==> db.equipos == old(db.equipos)
    ensures IndexOfId(old(db.equipos), id).None? ==> resp == FalloInterno
    ensures IndexOfId(old(db.equipos), id).Some? && ErrorRequerido(data).Some? ==> resp == Rechazo(ErrorRequerido(data).value)
    ensures IndexOfId(old(db.equipos), id).Some? && ErrorRequerido(data).None? ==>
              var actual := old(db.equipos)[IndexOfId(old(db.equipos), id).value].datos.numeroSerie;
              (CambiaSerie(data, actual) && SerieEditada(data, actual, conv).Some? &&
               SerieOcupada(old(db.equipos), SerieEditada(data, actual, conv).value, id))
                ==> resp == Rechazo(SerieExiste)
    ensures resp.Hecho? ==>
              resp.mensaje == "Equipo actualizado exitosamente" &&
              IndexOfId(old(db.equipos), id).Some? && ErrorRequerido(data).None? &&
              var f := old(db.equipos)[IndexOfId(old(db.equipos), id).value];
              Edicion(f, data, conv).Some? &&
              db.equipos == Stored(old(db.equipos), Fila(id, Alta(Edicion(f, data, conv).value, old(db.Serials()))))
    ensures IndexOfId(old(db.equipos), id).Some? && ErrorRequerido(data).None? ==>
              var f := old(db.equipos)[IndexOfId(old(db.equipos), id).value];
              (Edicion(f, data, conv).Some? && Edicion(f, data, conv).value.numeroSerie != "" &&
               Admissible(old(db.equipos), Some(id), Alta(Edicion(f, data, conv).value, old(db.Serials())), |db.areas|, |db.estados|))
                ==> resp.Hecho?
  {
    var i := IndexOfId(db.equipos, id);
    if i.None? {
      return FalloInterno;
    }
    var e := new Equipo.Cargar(db.equipos[i.value]);
    var falta := CampoFaltante(data);
    if falta.Some? {
      return Rechazo(falta.value);
    }
    var d := Pedido(data, conv);
    resp := Actualizar(db, e, i.value, d, data, conv);
  }

  // ---------------------------------------------------------------------------
  // importar_equipos_excel
  // ---------------------------------------------------------------------------

  /** The response of the import view. */
  datatype RespuestaImportacion =
    | Importada(mensaje: string, creados: nat, errores: seq<string>)   // 200
    | NoImportada(error: string, errores: seq<string>)                 // 400, with the row errors
    | ArchivoRechazado(error: string)                                         // 400

  const NadaImportado: string := "No se pudo importar ning\U{FA}n equipo. Verifica el formato del archivo."

  /** The message of a successful import. */
  function MensajeImportacion(creados: nat, errores: seq<string>): string {
    var base := "Se importaron " + Digits(creados) + " equipos exitosamente";
    if errores != [] then base + ". Se encontraron " + Digits(|errores|) + " errores" else base
  }

  /** The response once the import has run: success exactly when something was created. */
  function ResponderImportacion(creados: nat, errores: seq<string>): (r: RespuestaImportacion)
    ensures r.Importada? <==> creados > 0
    ensures r.Importada? ==> r.creados == creados && r.errores == errores
    ensures r.NoImportada? ==> r.error == NadaImportado && r.errores == errores
    ensures !r.ArchivoRechazado?
  {
    if creados > 0 then Importada(MensajeImportacion(creados, errores), creados, errores)
    else NoImportada(NadaImportado, errores)
  }

  /**
   * The message starts with the created count, and goes on exactly when
   * there are errors, with a count that reads back as their number.
   */
  lemma MensajeImportacionSpec(creados: nat, errores: seq<string>)
    ensures var base := "Se importaron " + Digits(creados) + " equipos exitosamente";
            var m := MensajeImportacion(creados, errores);
            IsPrefix(base, m) && (errores == [] <==> |m| == |base|) &&
            (errores != [] ==> |base| + 17 <= |m| - 8 && AllDigits(m[|base| + 17..|m| - 8]) &&
                               DigitsValue(m[|base| + 17..|m| - 8]) == |errores|)
  {
    var base := "Se importaron " + Digits(creados) + " equipos exitosamente";
    var m := MensajeImportacion(creados, errores);
    if errores != [] {
      var mid, n, tail := ". Se encontraron ", Digits(|errores|), " errores";
      assert |mid| == 17 && |tail| == 8;
      assert m == base + mid + n + tail;
      assert m[..|base|] == base;
      assert m[|base| + 17..|m| - 8] == n;
    }
  }

  /**
   * `importar_equipos_excel`: no file, or a file the validator refuses, is
   * answered 400; otherwise the rows are read and the records created, and
   * the response reports the created count and every row error, those of
   * reading first.
   */
  method ImportarEquiposExcel(db: Database, archivo: Option<Workbook>,
                              floatOf: string -> Option<real>, toDate: string -> Option<Date>)
    returns (resp: RespuestaImportacion)
    requires db.Valid()
    requires archivo.Some? && archivo.value.Readable? ==> Rectangular(archivo.value.rows)
    modifies db
    ensures db.Valid()
    ensures archivo.None? ==> resp == ArchivoRechazado("No se ha seleccionado ning\U{FA}n archivo")
    ensures archivo.Some? && !ValidacionDe(archivo.value, false).valido ==>
              resp == ArchivoRechazado(ValidacionDe(archivo.value, false).mensaje)
    ensures resp.ArchivoRechazado? ==> db.equipos == old(db.equipos) && db.areas == old(db.areas) && db.estados == old(db.estados)
    ensures |old(db.equipos)| <= |db.equipos| && db.equipos[..|old(db.equipos)|] == old(db.equipos)
    ensures !resp.ArchivoRechazado? ==> resp == ResponderImportacion(|db.equipos| - |old(db.equipos)|, resp.errores)
    ensures resp.Importada? <==> |db.equipos| > |old(db.equipos)|
  {
    if archivo.None? {
      return ArchivoRechazado("No se ha seleccionado ning\U{FA}n archivo");
    }
    var v := ValidarArchivoCorregido(archivo.value);
    if !v.valido {
      return ArchivoRechazado(v.mensaje);
    }
    var leido := ProcesarImportacion(db, archivo.value, floatOf, toDate);
    if leido.Rechazada? {
      return ArchivoRechazado(leido.mensaje);
    }
    ghost var m := Mapear(Encabezados(archivo.value.rows[0])).value;
    ProcesarFilasEnTablas(old(db.areas), old(db.estados), ColumnasDe(m), archivo.value.rows[1..], floatOf, toDate);
    ghost var antes := db.equipos;
    var creados, errores := CrearEquiposMasivo(db, leido.registros);
    assert db.equipos[..|antes|] == antes;
    resp := ResponderImportacion(|creados|, leido.errores + errores);
  }

  // ---------------------------------------------------------------------------
  // The dashboard's colour and icon per state
  // ---------------------------------------------------------------------------

  const Colores: map<string, string> := map[
    "Operativo" := "success", "Bueno" := "success", "Nuevo" := "info",
    "Regular" := "warning", "Mantenimiento" := "warning", "En Reparaci\U{F3}n" := "warning",
    "Malo" := "danger", "Inoperativo" := "danger", "Fuera de Servicio" := "danger",
    "Dado de Baja" := "secondary", "En Almac\U{E9}n" := "info"]

  const Iconos: map<string, string> := map[
    "Operativo" := "fa-check-circle", "Bueno" := "fa-check-circle", "Nuevo" := "fa-star",
    "Regular" := "fa-exclamation-triangle", "Mantenimiento" := "fa-tools", "En Reparaci\U{F3}n" := "fa-wrench",
    "Malo" := "fa-times-circle", "Inoperativo" := "fa-times-circle", "Fuera de Servicio" := "fa-ban",
    "Dado de Baja" := "fa-trash", "En Almac\U{E9}n" := "fa-box"]

  /** `get_estado_color`: one of the six Bootstrap contextual classes, the default one exactly for an unlisted state. */
  function EstadoColor(nombre: string): (c: string)
    ensures c in {"success", "info", "warning", "danger", "secondary", "primary"}
    ensures c == "primary" <==> nombre !in Colores
  {
    if nombre in Colores then
      assert Colores[nombre] in Colores.Values;
      Colores[nombre]
    else "primary"
  }

  /** `get_estado_icon`: a Font Awesome class, the question mark exactly for an unlisted state. */
  function EstadoIcon(nombre: string): (i: string)
    ensures IsPrefix("fa-", i)
    ensures i == "fa-question-circle" <==> nombre !in Iconos
  {
    if nombre in Iconos then
      assert Iconos[nombre] in Iconos.Values;
      Iconos[nombre]
    else "fa-question-circle"
  }

  /**
   * Both tables know the same states, so a state gets the default colour
   * exactly when it gets the default icon.
   */
  lemma EstadoDefaults(nombre: string)
    ensures EstadoColor(nombre) == "primary" <==> EstadoIcon(nombre) == "fa-question-circle"
  {
    assert Colores.Keys == Iconos.Keys;
  }
}

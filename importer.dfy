/**
 * The bulk import of equipos from a spreadsheet: the file validator, the
 * mapping of header names to fields through alias tables, the per-row
 * processing with get-or-create of areas and states, the bulk creation with
 * its duplicate rule.
 */
module Importer {
  import opened Wrappers
  import opened Text
  import opened Models

  // ---------------------------------------------------------------------------
  // Workbooks
  // ---------------------------------------------------------------------------

  /** A spreadsheet cell: empty (NaN once pandas reads it) or a value, given by its `str()` text. */
  datatype Cell = Blank | Value(text: string)

  /** `str(cell)`: an empty cell prints as "nan". */
  function Str(c: Cell): string {
    match c
    case Blank => "nan"
    case Value(t) => t
  }

  /** The upload: a file openpyxl cannot open (with the library's message), or the rows of its active sheet. */
  datatype Workbook = Unreadable(reason: string) | Readable(rows: seq<seq<Cell>>)

  /** The decimal text of a row number, as an f-string prints it. */
  function FilaTexto(n: nat): string {
    Digits(n)
  }

  /** "Fila {n}: ", the head of every row error. */
  function EnFila(n: nat): string {
    "Fila " + FilaTexto(n) + ": "
  }

  // ---------------------------------------------------------------------------
  // validar_archivo_excel
  // ---------------------------------------------------------------------------

  const RequiredColumns: seq<string> := ["Nombre", "Tipo", "\U{C1}rea", "Estado"]

  /** The header row the import template writes. */
  const TemplateHeaders: seq<string> := [
    "Nombre*", "Tipo*", "N\U{B0} Serie", "Marca", "Modelo", "Precio",
    "Proveedor", "Fecha Compra (DD/MM/YYYY)", "Garant\U{ED}a Hasta (DD/MM/YYYY)",
    "\U{C1}rea*", "Estado*", "Observaci\U{F3}n"]

  /** The values of cells 1..12 of the header row; cells past the end of the row are empty. */
  function HeaderCells(header: seq<Cell>): (h: seq<Cell>)
    ensures |h| == 12
    ensures forall i :: 0 <= i < 12 ==> h[i] == if i < |header| then header[i] else Blank
  {
    seq(12, i requires 0 <= i < 12 => if i < |header| then header[i] else Blank)
  }

  /** `col in headers`: some header cell holds exactly the text `col`. */
  predicate HasExact(headers: seq<Cell>, col: string) {
    Value(col) in headers
  }

  /** A header cell whose stripped, lower-cased text contains `col` lower-cased. */
  predicate HasLoose(headers: seq<Cell>, col: string) {
    exists i :: 0 <= i < |headers| && headers[i].Value? && Contains(Lower(Strip(headers[i].text)), Lower(col))
  }

  predicate Has(headers: seq<Cell>, col: string, exact: bool) {
    if exact then HasExact(headers, col) else HasLoose(headers, col)
  }

  /** The column test the validator applies to the header row. */
  function Presente(headers: seq<Cell>, exact: bool): string -> bool {
    col => Has(headers, col, exact)
  }

  /** The position of the first required column, in order, that fails the test `has`. */
  function FirstMissing(has: string -> bool, required: seq<string>): (r: Option<nat>)
    ensures r.None? ==> forall k :: 0 <= k < |required| ==> has(required[k])
    ensures r.Some? ==> r.value < |required| && !has(required[r.value]) &&
                        forall j :: 0 <= j < r.value ==> has(required[j])
  {
    if required == [] then None
    else if !has(required[0]) then Some(0)
    else
      match FirstMissing(has, required[1..])
      case None => None
      case Some(k) => Some(k + 1)
  }

  /** The outcome of a validation: whether the file is accepted, and its message. */
  datatype Validacion = Validacion(valido: bool, mensaje: string)

  /**
   * The loop over the required columns, stopping at the first one the header
   * test `has` fails (the validator passes `Presente` with the exact test as
   * the source has it, or the loose one).
   */
  method FindMissing(has: string -> bool, required: seq<string>) returns (falta: Option<nat>)
    ensures falta == FirstMissing(has, required)
  {
    var i := 0;
    while i < |required|
      invariant 0 <= i <= |required|
      invariant forall j :: 0 <= j < i ==> has(required[j])
    {
      if !has(required[i]) {
        FirstMissingIs(has, required, i);
        return Some(i);
      }
      i := i + 1;
    }
    FirstMissingIs(has, required, |required|);
    return None;
  }

  /** The first missing column is the one a left-to-right scan stops at. */
  lemma {:induction false} FirstMissingIs(has: string -> bool, required: seq<string>, i: nat)
    requires i <= |required|
    requires forall j :: 0 <= j < i ==> has(required[j])
    requires i < |required| ==> !has(required[i])
    ensures FirstMissing(has, required) == if i < |required| then Some(i) else None
  {
    if required != [] && i > 0 {
      FirstMissingIs(has, required[1..], i - 1);
    }
  }

  function ValidacionDe(wb: Workbook, exact: bool): Validacion {
    match wb
    case Unreadable(reason) => Validacion(false, "Error al leer el archivo: " + reason)
    case Readable(rows) =>
      if |rows| < 2 then Validacion(false, "El archivo no contiene datos")
      else
        match FirstMissing(Presente(HeaderCells(rows[0]), exact), RequiredColumns)
        case Some(k) => Validacion(false, "Falta la columna requerida: " + RequiredColumns[k])
        case None => Validacion(true, "Archivo v\U{E1}lido")
  }

  /**
   * `validar_archivo_excel` as written: a sheet of fewer than two rows is
   * refused, then each of Nombre, Tipo, Área, Estado must equal one of the
   * first twelve header cells exactly.
   */
  method ValidarArchivo(wb: Workbook) returns (v: Validacion)
    ensures v == ValidacionDe(wb, true)
    ensures v.valido <==> wb.Readable? && |wb.rows| >= 2 &&
                          forall k :: 0 <= k < |RequiredColumns| ==> Value(RequiredColumns[k]) in HeaderCells(wb.rows[0])
  {
    v := Validar(wb, true);
  }

  /**
   * The validator with the required names looked up loosely (ignoring case,
   * surrounding whitespace and extra text such as the template's '*'); the
   * rest of the import uses this one.
   */
  method ValidarArchivoCorregido(wb: Workbook) returns (v: Validacion)
    ensures v == ValidacionDe(wb, false)
    ensures v.valido <==> wb.Readable? && |wb.rows| >= 2 &&
                          forall k :: 0 <= k < |RequiredColumns| ==> HasLoose(HeaderCells(wb.rows[0]), RequiredColumns[k])
  {
    v := Validar(wb, false);
  }

  method Validar(wb: Workbook, exact: bool) returns (v: Validacion)
    ensures v == ValidacionDe(wb, exact)
  {
    if wb.Unreadable? {
      return Validacion(false, "Error al leer el archivo: " + wb.reason);
    }
    if |wb.rows| < 2 {
      return Validacion(false, "El archivo no contiene datos");
    }
    var falta := FindMissing(Presente(HeaderCells(wb.rows[0]), exact), RequiredColumns);
    if falta.Some? {
      return Validacion(false, "Falta la columna requerida: " + RequiredColumns[falta.value]);
    }
    return Validacion(true, "Archivo v\U{E1}lido");
  }

  /** The header row of a sheet made from the template. */
  function TemplateRow(): (h: seq<Cell>)
    ensures |h| == 12 && forall i :: 0 <= i < 12 ==> h[i] == Value(TemplateHeaders[i])
  {
    seq(12, i requires 0 <= i < 12 => Value(TemplateHeaders[i]))
  }

  /**
   * A sheet filled in from the template is refused by the validator as
   * written: its header says 'Nombre*', never exactly 'Nombre'.
   */
  lemma TemplateRejected(rows: seq<seq<Cell>>)
    requires |rows| >= 2 && rows[0] == TemplateRow()
    ensures ValidacionDe(Readable(rows), true) == Validacion(false, "Falta la columna requerida: Nombre")
  {
    var h := HeaderCells(rows[0]);
    assert h == TemplateRow();
    forall i | 0 <= i < 12 ensures h[i] != Value("Nombre") {
      assert |TemplateHeaders[i]| != 6 || TemplateHeaders[i][0] != 'N' || TemplateHeaders[i][5] != 'e';
    }
    assert !HasExact(h, RequiredColumns[0]);
    FirstMissingIs(Presente(h, true), RequiredColumns, 0);
  }

  lemma StripNoEdges(s: string)
    requires s != [] && !IsSpace(s[0]) && !IsSpace(s[|s| - 1])
    ensures Strip(s) == s
  {
  }

  /** A header that starts with the column's name matches it loosely. */
  lemma LooseByPrefix(headers: seq<Cell>, i: nat, col: string)
    requires i < |headers| && headers[i].Value?
    requires var t := headers[i].text; t != [] && !IsSpace(t[0]) && !IsSpace(t[|t| - 1]) && IsPrefix(col, t)
    ensures HasLoose(headers, col)
  {
    var t := headers[i].text;
    StripNoEdges(t);
    assert Lower(t)[..|col|] == Lower(col);
    assert Contains(Lower(Strip(t)), Lower(col));
  }

  /** The template marks a required column by appending '*' to its name. */
  lemma StarredColumn(h: seq<Cell>, i: nat, k: nat)
    requires h == TemplateRow() && i < 12 && k < |RequiredColumns|
    requires TemplateHeaders[i] == RequiredColumns[k] + "*"
    ensures HasLoose(h, RequiredColumns[k])
  {
    var col := RequiredColumns[k];
    var t := col + "*";
    assert t[0] == col[0] && !IsSpace(col[0]);
    assert t[..|col|] == col;
    LooseByPrefix(h, i, col);
  }

  lemma TemplateHasColumn(h: seq<Cell>, k: nat)
    requires h == TemplateRow() && k < |RequiredColumns|
    ensures HasLoose(h, RequiredColumns[k])
  {
    if k == 0 {
      StarredColumn(h, 0, 0);
    } else if k == 1 {
      StarredColumn(h, 1, 1);
    } else if k == 2 {
      StarredColumn(h, 9, 2);
    } else {
      StarredColumn(h, 10, 3);
    }
  }

  /** The loose validator accepts every sheet filled in from the template. */
  lemma TemplateAccepted(rows: seq<seq<Cell>>)
    requires |rows| >= 2 && rows[0] == TemplateRow()
    ensures ValidacionDe(Readable(rows), false).valido
  {
    var h := HeaderCells(rows[0]);
    assert h == TemplateRow();
    forall k | 0 <= k < |RequiredColumns|
      ensures Has(h, RequiredColumns[k], false)
    {
      TemplateHasColumn(h, k);
    }
    FirstMissingIs(Presente(h, false), RequiredColumns, 4);
  }

  // ---------------------------------------------------------------------------
  // Column mapping (procesar_importacion_excel)
  // ---------------------------------------------------------------------------

  /** A field of the import and the names a column may carry for it. */
  datatype Campo = Campo(nombre: string, alias: seq<string>)

  const Requeridos: seq<Campo> := [
    Campo("nombre", ["nombre", "name", "equipo", "equipment"]),
    Campo("tipo", ["tipo", "type", "categoria", "category"]),
    Campo("area", ["area", "\U{E1}rea", "departamento", "department"]),
    Campo("estado", ["estado", "status", "condition"])]

  const Opcionales: seq<Campo> := [
    Campo("marca", ["marca", "brand", "fabricante", "manufacturer"]),
    Campo("modelo", ["modelo", "model"]),
    Campo("precio", ["precio", "price", "cost", "costo", "valor", "value"]),
    Campo("proveedor", ["proveedor", "supplier", "vendor"]),
    Campo("observacion", ["observacion", "observaci\U{F3}n", "descripcion", "descripci\U{F3}n", "description", "notes", "notas"]),
    Campo("fecha_compra", ["fecha_compra", "fecha compra", "purchase_date", "date_purchased", "compra"]),
    Campo("garantia_hasta", ["garantia_hasta", "garant\U{ED}a hasta", "warranty_until", "garantia", "garant\U{ED}a"])]

  /** A column's name as the DataFrame would carry it after `str.lower().str.strip()`. */
  function ColumnName(header: string): string {
    Lower(Strip(header))
  }

  /** `any(nombre in col for nombre in posibles_nombres)`. */
  predicate MatchesAny(col: string, aliases: seq<string>) {
    exists k :: 0 <= k < |aliases| && Contains(col, aliases[k])
  }

  /** The first column, in column order, that contains one of the aliases. */
  function FirstMatch(columns: seq<string>, aliases: seq<string>): (r: Option<nat>)
    ensures r.Some? ==> r.value < |columns| && MatchesAny(columns[r.value], aliases) &&
                        forall j :: 0 <= j < r.value ==> !MatchesAny(columns[j], aliases)
    ensures r.None? ==> forall j :: 0 <= j < |columns| ==> !MatchesAny(columns[j], aliases)
  {
    if columns == [] then None
    else if MatchesAny(columns[0], aliases) then Some(0)
    else
      match FirstMatch(columns[1..], aliases)
      case None => None
      case Some(k) => Some(k + 1)
  }

  lemma {:induction false} FirstMatchIs(columns: seq<string>, aliases: seq<string>, i: nat)
    requires i <= |columns|
    requires forall j :: 0 <= j < i ==> !MatchesAny(columns[j], aliases)
    requires i < |columns| ==> MatchesAny(columns[i], aliases)
    ensures FirstMatch(columns, aliases) == if i < |columns| then Some(i) else None
  {
    if columns != [] && i > 0 {
      FirstMatchIs(columns[1..], aliases, i - 1);
    }
  }

  /** The position of the first field, in order, that no column matches. */
  function FirstUnmatched(columns: seq<string>, campos: seq<Campo>): (r: Option<nat>)
    ensures r.None? ==> forall i :: 0 <= i < |campos| ==> FirstMatch(columns, campos[i].alias).Some?
    ensures r.Some? ==> r.value < |campos| && FirstMatch(columns, campos[r.value].alias).None? &&
                        forall i :: 0 <= i < r.value ==> FirstMatch(columns, campos[i].alias).Some?
  {
    if campos == [] then None
    else if FirstMatch(columns, campos[0].alias).None? then Some(0)
    else
      match FirstUnmatched(columns, campos[1..])
      case None => None
      case Some(k) => Some(k + 1)
  }

  /** `sep.join(xs)`. */
  function Join(xs: seq<string>, sep: string): string {
    if xs == [] then ""
    else if |xs| == 1 then xs[0]
    else xs[0] + sep + Join(xs[1..], sep)
  }

  function MissingMessage(c: Campo): string {
    "Columna requerida '" + c.nombre + "' no encontrada. Busque: " + Join(c.alias, ", ")
  }

  /** The mapping the loops build over `campos`: each matched field to its first matching column. */
  function Mapeo(columns: seq<string>, campos: seq<Campo>): map<string, nat> {
    if campos == [] then map[]
    else
      var m := Mapeo(columns, campos[..|campos| - 1]);
      var c := campos[|campos| - 1];
      match FirstMatch(columns, c.alias)
      case None => m
      case Some(k) => m[c.nombre := k]
  }

  /** The outcome of the mapping step: the first unmatched required field's message, or the mapping. */
  function Mapear(columns: seq<string>): Result<map<string, nat>, string> {
    match FirstUnmatched(columns, Requeridos)
    case Some(i) => Err(MissingMessage(Requeridos[i]))
    case None => Ok(Mapeo(columns, Requeridos + Opcionales))
  }

  predicate DistinctNames(campos: seq<Campo>) {
    forall i, j :: 0 <= i < j < |campos| ==> campos[i].nombre != campos[j].nombre
  }

  /**
   * With distinct field names, a field is in the mapping exactly when some
   * column matches it, and then it maps to the first such column; nothing
   * else is in the mapping.
   */
  lemma {:induction false} MapeoSpec(columns: seq<string>, campos: seq<Campo>)
    requires DistinctNames(campos)
    ensures forall i :: 0 <= i < |campos| ==>
              (campos[i].nombre in Mapeo(columns, campos) <==> FirstMatch(columns, campos[i].alias).Some?) &&
              (campos[i].nombre in Mapeo(columns, campos) ==>
                 Mapeo(columns, campos)[campos[i].nombre] == FirstMatch(columns, campos[i].alias).value)
    ensures forall f :: f in Mapeo(columns, campos) ==> exists i :: 0 <= i < |campos| && campos[i].nombre == f
  {
    if campos != [] {
      var init, c := campos[..|campos| - 1], campos[|campos| - 1];
      assert DistinctNames(init) by {
        assert forall i :: 0 <= i < |init| ==> init[i] == campos[i];
      }
      MapeoSpec(columns, init);
      var m0, m := Mapeo(columns, init), Mapeo(columns, campos);
      assert m == if FirstMatch(columns, c.alias).Some? then m0[c.nombre := FirstMatch(columns, c.alias).value] else m0;
      forall i | 0 <= i < |campos|
        ensures (campos[i].nombre in m <==> FirstMatch(columns, campos[i].alias).Some?) &&
                (campos[i].nombre in m ==> m[campos[i].nombre] == FirstMatch(columns, campos[i].alias).value)
      {
        if i < |init| {
          assert campos[i] == init[i] && campos[i].nombre != c.nombre;
        }
      }
      forall f | f in m ensures exists i :: 0 <= i < |campos| && campos[i].nombre == f {
        if f in m0 {
          var i :| 0 <= i < |init| && init[i].nombre == f;
          assert campos[i] == init[i];
        } else {
          assert campos[|campos| - 1].nombre == f;
        }
      }
    }
  }

  lemma FieldNamesDistinct()
    ensures DistinctNames(Requeridos + Opcionales)
  {
    var all := Requeridos + Opcionales;
    var names := seq(|all|, i requires 0 <= i < |all| => all[i].nombre);
    assert names == ["nombre", "tipo", "area", "estado", "marca", "modelo", "precio", "proveedor",
                     "observacion", "fecha_compra", "garantia_hasta"];
    forall i, j | 0 <= i < j < |all| ensures all[i].nombre != all[j].nombre {
      assert names[i] == all[i].nombre && names[j] == all[j].nombre;
    }
  }

  /**
   * The two mapping loops: each required field, in order, takes the first
   * column that contains one of its aliases, and the first required field
   * without one aborts with a message naming it and its aliases; then each
   * optional field does the same, and is left out when nothing matches.
   */
  method MapColumns(columns: seq<string>) returns (r: Result<map<string, nat>, string>)
    ensures r == Mapear(columns)
  {
    r := MapRequired(columns, Requeridos);
    if r.Ok? {
      var m := MapOptional(columns, Requeridos, Opcionales, r.value);
      r := Ok(m);
    }
  }

  /** The loop over the required fields. */
  method MapRequired(columns: seq<string>, campos: seq<Campo>) returns (r: Result<map<string, nat>, string>)
    ensures r == match FirstUnmatched(columns, campos)
                 case Some(i) => Err(MissingMessage(campos[i]))
                 case None => Ok(Mapeo(columns, campos))
  {
    var m: map<string, nat> := map[];
    var i := 0;
    while i < |campos|
      invariant 0 <= i <= |campos|
      invariant Emparejados(columns, campos, i)
      invariant m == Mapeo(columns, campos[..i])
    {
      var campo := campos[i];
      var k := FindColumn(columns, campo.alias);
      if k.None? {
        FirstUnmatchedIs(columns, campos, i);
        return Err(MissingMessage(campo));
      }
      MapeoPrefijoSnoc(columns, campos, i);
      EmparejadosSnoc(columns, campos, i);
      m := m[campo.nombre := k.value];
      i := i + 1;
    }
    FirstUnmatchedIs(columns, campos, |campos|);
    assert campos[..|campos|] == campos;
    return Ok(m);
  }

  /** The loop over the optional fields, extending the mapping of the required ones. */
  method MapOptional(columns: seq<string>, base: seq<Campo>, campos: seq<Campo>, m0: map<string, nat>)
    returns (m: map<string, nat>)
    requires m0 == Mapeo(columns, base)
    ensures m == Mapeo(columns, base + campos)
  {
    m := m0;
    var i := 0;
    assert base + campos[..0] == base;
    while i < |campos|
      invariant 0 <= i <= |campos|
      invariant m == Mapeo(columns, base + campos[..i])
    {
      var campo := campos[i];
      var k := FindColumn(columns, campo.alias);
      ghost var hecho := base + campos[..i];
      if k.Some? {
        m := m[campo.nombre := k.value];
      }
      assert m == Mapeo(columns, base + campos[..i + 1]) by {
        assert base + campos[..i + 1] == hecho + [campo];
        MapeoSnoc(columns, hecho, campo);
      }
      i := i + 1;
    }
    assert campos[..|campos|] == campos;
  }

  /** `MapeoSnoc` for the first `i + 1` fields of a list. */
  lemma MapeoPrefijoSnoc(columns: seq<string>, campos: seq<Campo>, i: nat)
    requires i < |campos|
    ensures Mapeo(columns, campos[..i + 1]) ==
              match FirstMatch(columns, campos[i].alias)
              case None => Mapeo(columns, campos[..i])
              case Some(k) => Mapeo(columns, campos[..i])[campos[i].nombre := k]
  {
    assert campos[..i + 1] == campos[..i] + [campos[i]];
    MapeoSnoc(columns, campos[..i], campos[i]);
  }

  /** One more field extends the mapping by that field's first matching column, if any. */
  lemma MapeoSnoc(columns: seq<string>, campos: seq<Campo>, c: Campo)
    ensures Mapeo(columns, campos + [c]) ==
              match FirstMatch(columns, c.alias)
              case None => Mapeo(columns, campos)
              case Some(k) => Mapeo(columns, campos)[c.nombre := k]
  {
    var xs := campos + [c];
    assert xs[..|xs| - 1] == campos && xs[|xs| - 1] == c;
  }

  /** The inner loop: scan the columns and stop at the first that matches. */
  method FindColumn(columns: seq<string>, aliases: seq<string>) returns (k: Option<nat>)
    ensures k == FirstMatch(columns, aliases)
  {
    var j := 0;
    while j < |columns|
      invariant 0 <= j <= |columns|
      invariant forall t :: 0 <= t < j ==> !MatchesAny(columns[t], aliases)
    {
      if MatchesAny(columns[j], aliases) {
        FirstMatchIs(columns, aliases, j);
        return Some(j);
      }
      j := j + 1;
    }
    FirstMatchIs(columns, aliases, |columns|);
    return None;
  }

  /** Each of the first `i` fields has a matching column. */
  predicate Emparejados(columns: seq<string>, campos: seq<Campo>, i: nat)
    requires i <= |campos|
  {
    forall t :: 0 <= t < i ==> FirstMatch(columns, campos[t].alias).Some?
  }

  lemma EmparejadosSnoc(columns: seq<string>, campos: seq<Campo>, i: nat)
    requires i < |campos| && Emparejados(columns, campos, i) && FirstMatch(columns, campos[i].alias).Some?
    ensures Emparejados(columns, campos, i + 1)
  {
  }

  lemma {:induction false} FirstUnmatchedIs(columns: seq<string>, campos: seq<Campo>, i: nat)
    requires i <= |campos|
    requires Emparejados(columns, campos, i)
    requires i < |campos| ==> FirstMatch(columns, campos[i].alias).None?
    ensures FirstUnmatched(columns, campos) == if i < |campos| then Some(i) else None
  {
    if campos != [] && i > 0 {
      FirstUnmatchedIs(columns, campos[1..], i - 1);
    }
  }

  /**
   * The mapping step succeeds exactly when every required field has a
   * matching column. Then every required field is mapped, each field maps to
   * its first matching column, an optional field without one is absent, and
   * nothing but the fields is mapped.
   */
  lemma MapearSpec(columns: seq<string>)
    ensures Mapear(columns).Ok? <==> forall i :: 0 <= i < |Requeridos| ==> FirstMatch(columns, Requeridos[i].alias).Some?
    ensures Mapear(columns).Err? ==> exists i :: 0 <= i < |Requeridos| && Mapear(columns).error == MissingMessage(Requeridos[i])
    ensures Mapear(columns).Ok? ==>
              var m := Mapear(columns).value;
              var campos := Requeridos + Opcionales;
              (forall i :: 0 <= i < |Requeridos| ==> Requeridos[i].nombre in m) &&
              (forall i :: 0 <= i < |campos| ==>
                 (campos[i].nombre in m <==> FirstMatch(columns, campos[i].alias).Some?) &&
                 (campos[i].nombre in m ==> m[campos[i].nombre] == FirstMatch(columns, campos[i].alias).value)) &&
              (forall f :: f in m ==> exists i :: 0 <= i < |campos| && campos[i].nombre == f)
  {
    var req, campos := Requeridos, Requeridos + Opcionales;
    var u := FirstUnmatched(columns, req);
    if u.None? {
      FieldNamesDistinct();
      MapeoSpec(columns, campos);
      var m := Mapeo(columns, campos);
      assert Mapear(columns) == Ok(m);
      forall i | 0 <= i < |req| ensures req[i].nombre in m {
        assert campos[i] == req[i];
      }
    } else {
      assert Mapear(columns) == Err(MissingMessage(req[u.value]));
    }
  }

  /** When `nombre` and `tipo` first match the same column, both map to it. */
  lemma SharedColumn(columns: seq<string>, k: nat)
    requires FirstMatch(columns, Requeridos[0].alias) == Some(k) && FirstMatch(columns, Requeridos[1].alias) == Some(k)
    requires FirstMatch(columns, Requeridos[2].alias).Some? && FirstMatch(columns, Requeridos[3].alias).Some?
    ensures var r := Mapear(columns);
            r.Ok? && "nombre" in r.value && "tipo" in r.value && r.value["nombre"] == k && r.value["tipo"] == k
  {
    forall i | 0 <= i < |Requeridos|
      ensures FirstMatch(columns, Requeridos[i].alias).Some?
    {
      assert i == 0 || i == 1 || i == 2 || i == 3;
    }
    MapearSpec(columns);
    var campos := Requeridos + Opcionales;
    assert campos[0].nombre == "nombre" && campos[1].nombre == "tipo";
  }

  lemma ColumnContains(columns: seq<string>, c: nat, k: nat, aliases: seq<string>, a: nat)
    requires c < |columns| && a < |aliases|
    requires k + |aliases[a]| <= |columns[c]| && columns[c][k..k + |aliases[a]|] == aliases[a]
    ensures MatchesAny(columns[c], aliases)
  {
    ContainsAt(columns[c], aliases[a], k);
  }

  lemma ExampleNombre(columns: seq<string>)
    requires columns == ["tipo de equipo", "area", "estado"]
    ensures FirstMatch(columns, Requeridos[0].alias) == Some(0)
  {
    ColumnContains(columns, 0, 8, Requeridos[0].alias, 2);
    FirstMatchIs(columns, Requeridos[0].alias, 0);
  }

  lemma ExampleTipo(columns: seq<string>)
    requires columns == ["tipo de equipo", "area", "estado"]
    ensures FirstMatch(columns, Requeridos[1].alias) == Some(0)
  {
    ColumnContains(columns, 0, 0, Requeridos[1].alias, 0);
    FirstMatchIs(columns, Requeridos[1].alias, 0);
  }

  lemma ExampleAreaEstado(columns: seq<string>)
    requires columns == ["tipo de equipo", "area", "estado"]
    ensures FirstMatch(columns, Requeridos[2].alias).Some? && FirstMatch(columns, Requeridos[3].alias).Some?
  {
    ColumnContains(columns, 1, 0, Requeridos[2].alias, 0);
    ColumnContains(columns, 2, 0, Requeridos[3].alias, 0);
  }

  /**
   * Nothing stops two fields from claiming one column: a column named
   * "tipo de equipo" holds both the `tipo` alias "tipo" and the `nombre`
   * alias "equipo", so both fields map to it.
   */
  lemma TwoFieldsOneColumn(columns: seq<string>)
    requires columns == ["tipo de equipo", "area", "estado"]
    ensures var r := Mapear(columns);
            r.Ok? && "nombre" in r.value && "tipo" in r.value && r.value["nombre"] == 0 && r.value["tipo"] == 0
  {
    ExampleNombre(columns);
    ExampleTipo(columns);
    ExampleAreaEstado(columns);
    SharedColumn(columns, 0);
  }

  // ---------------------------------------------------------------------------
  // Get-or-create by case-insensitive name
  // ---------------------------------------------------------------------------

  /** How many names a `nombre__iexact` lookup matches. */
  function CountIExact(names: seq<string>, nombre: string): (n: nat)
    ensures n <= |names|
  {
    if names == [] then 0
    else (if EqualsIgnoreCase(names[0], nombre) then 1 else 0) + CountIExact(names[1..], nombre)
  }

  /** The first name the lookup matches. */
  function IndexIExact(names: seq<string>, nombre: string): (r: Option<nat>)
    ensures r.Some? ==> r.value < |names| && EqualsIgnoreCase(names[r.value], nombre)
    ensures r.None? <==> CountIExact(names, nombre) == 0
  {
    if names == [] then None
    else if EqualsIgnoreCase(names[0], nombre) then Some(0)
    else
      match IndexIExact(names[1..], nombre)
      case None => None
      case Some(k) => Some(k + 1)
  }

  /**
   * `Model.objects.get(nombre__iexact=nombre)`, creating the row on
   * DoesNotExist: the table after the call and the key found or created;
   * None when several names match (MultipleObjectsReturned).
   */
  function GetOrCreate(names: seq<string>, nombre: string): (r: Option<(seq<string>, nat)>)
    ensures r.None? <==> CountIExact(names, nombre) >= 2
    ensures r.Some? ==> 1 <= r.value.1 <= |r.value.0| && EqualsIgnoreCase(r.value.0[r.value.1 - 1], nombre)
    ensures r.Some? && CountIExact(names, nombre) == 0 ==> r.value.0 == names + [nombre]
    ensures r.Some? && CountIExact(names, nombre) == 1 ==> r.value.0 == names
    ensures r.Some? ==> |names| <= |r.value.0| && r.value.0[..|names|] == names
  {
    var n := CountIExact(names, nombre);
    if n == 0 then Some((names + [nombre], |names| + 1))
    else if n == 1 then Some((names, IndexIExact(names, nombre).value + 1))
    else None
  }

  lemma {:induction false} CountIExactAppend(names: seq<string>, x: string, nombre: string)
    ensures CountIExact(names + [x], nombre) == CountIExact(names, nombre) + (if EqualsIgnoreCase(x, nombre) then 1 else 0)
  {
    if names != [] {
      assert (names + [x])[1..] == names[1..] + [x];
      CountIExactAppend(names[1..], x, nombre);
    } else {
      assert [x][1..] == [];
    }
  }

  lemma {:induction false} IndexIExactAppend(names: seq<string>, x: string, nombre: string)
    requires CountIExact(names, nombre) == 0
    ensures IndexIExact(names + [x], nombre) == if EqualsIgnoreCase(x, nombre) then Some(|names|) else None
  {
    if names != [] {
      assert (names + [x])[1..] == names[1..] + [x];
      IndexIExactAppend(names[1..], x, nombre);
    }
  }

  /** Looking the same name up again finds what the first call found or created, and creates nothing. */
  lemma GetOrCreateIdempotent(names: seq<string>, nombre: string)
    requires GetOrCreate(names, nombre).Some?
    ensures var (after, id) := GetOrCreate(names, nombre).value;
            GetOrCreate(after, nombre) == Some((after, id))
  {
    if CountIExact(names, nombre) == 0 {
      CountIExactAppend(names, nombre, nombre);
      IndexIExactAppend(names, nombre, nombre);
    }
  }

  /** No two names of the table are equal ignoring case. */
  predicate CaseDistinct(names: seq<string>) {
    forall i, j :: 0 <= i < j < |names| ==> !EqualsIgnoreCase(names[i], names[j])
  }

  lemma {:induction false} CountIExactOfDistinct(names: seq<string>, nombre: string)
    requires CaseDistinct(names)
    ensures CountIExact(names, nombre) <= 1
  {
    if names != [] {
      CountIExactOfDistinct(names[1..], nombre);
      if EqualsIgnoreCase(names[0], nombre) {
        var rest := names[1..];
        forall i | 0 <= i < |rest| ensures !EqualsIgnoreCase(rest[i], nombre) {
          assert rest[i] == names[i + 1];
        }
        assert IndexIExact(rest, nombre).None?;
      }
    }
  }

  /**
   * On a table whose names differ ignoring case, get-or-create never fails
   * and keeps the names distinct.
   */
  lemma GetOrCreateKeepsDistinct(names: seq<string>, nombre: string)
    requires CaseDistinct(names)
    ensures GetOrCreate(names, nombre).Some?
    ensures CaseDistinct(GetOrCreate(names, nombre).value.0)
  {
    CountIExactOfDistinct(names, nombre);
    if CountIExact(names, nombre) == 0 {
      var after := names + [nombre];
      forall i, j | 0 <= i < j < |after| ensures !EqualsIgnoreCase(after[i], after[j]) {
        if j == |names| {
          if EqualsIgnoreCase(after[i], after[j]) {
            CountIExactPositive(names, nombre, i);
          }
        }
      }
    }
  }

  lemma {:induction false} CountIExactPositive(names: seq<string>, nombre: string, i: nat)
    requires i < |names| && EqualsIgnoreCase(names[i], nombre)
    ensures CountIExact(names, nombre) >= 1
  {
    if i > 0 {
      CountIExactPositive(names[1..], nombre, i - 1);
    }
  }

  /** Django's MultipleObjectsReturned message. */
  function MultipleMessage(model: string, n: nat): (m: string)
    ensures var p := "get() returned more than one " + model + " -- it returned ";
            IsPrefix(p, m) && |m| > |p| && m[|m| - 1] == '!' &&
            (n < 21 ==> AllDigits(m[|p|..|m| - 1]) && DigitsValue(m[|p|..|m| - 1]) == n) &&
            (n >= 21 ==> m[|p|..|m| - 1] == "more than 20")
  {
    var p := "get() returned more than one " + model + " -- it returned ";
    var cuenta := if n < 21 then Digits(n) else "more than 20";
    var m := p + cuenta + "!";
    assert m[..|p|] == p && m[|p|..|m| - 1] == cuenta;
    m
  }

  /** `Area.objects.get(nombre__iexact=...)`, creating the area on DoesNotExist. */
  method GetOrCreateArea(db: Database, nombre: string) returns (id: Option<nat>)
    requires db.Valid()
    modifies db
    ensures db.Valid()
    ensures GetOrCreate(old(db.areas), nombre) == if id.Some? then Some((db.areas, id.value)) else None
    ensures id.None? ==> db.areas == old(db.areas)
    ensures db.estados == old(db.estados) && db.equipos == old(db.equipos) && db.nextId == old(db.nextId)
  {
    var n := CountIExact(db.areas, nombre);
    if n == 0 {
      var k := db.CreateArea(nombre);
      id := Some(k);
    } else if n == 1 {
      id := Some(IndexIExact(db.areas, nombre).value + 1);
    } else {
      id := None;
    }
  }

  /** `Estado.objects.get(nombre__iexact=...)`, creating the estado on DoesNotExist. */
  method GetOrCreateEstado(db: Database, nombre: string) returns (id: Option<nat>)
    requires db.Valid()
    modifies db
    ensures db.Valid()
    ensures GetOrCreate(old(db.estados), nombre) == if id.Some? then Some((db.estados, id.value)) else None
    ensures id.None? ==> db.estados == old(db.estados)
    ensures db.areas == old(db.areas) && db.equipos == old(db.equipos) && db.nextId == old(db.nextId)
  {
    var n := CountIExact(db.estados, nombre);
    if n == 0 {
      var k := db.CreateEstado(nombre);
      id := Some(k);
    } else if n == 1 {
      id := Some(IndexIExact(db.estados, nombre).value + 1);
    } else {
      id := None;
    }
  }

  // ---------------------------------------------------------------------------
  // Rows
  // ---------------------------------------------------------------------------

  /** A row the import accepts, as handed on to the bulk creation; `fila` is its sheet row. */
  datatype Registro = Registro(
    nombre: string,
    tipo: string,
    area: nat,
    estado: nat,
    marca: string,
    modelo: string,
    precio: Option<real>,
    proveedor: string,
    observacion: string,
    fechaCompra: Option<Date>,
    garantiaHasta: Option<Date>,
    fila: nat)

  /** The Area and Estado tables, the accepted rows and the errors, as the row loop leaves them. */
  datatype Progreso = Progreso(areas: seq<string>, estados: seq<string>, registros: seq<Registro>, errores: seq<string>)

  /** The column mapping resolved per field: required fields have a column, optional ones may not. */
  datatype Columnas = Columnas(
    nombre: nat,
    tipo: nat,
    area: nat,
    estado: nat,
    marca: Option<nat>,
    modelo: Option<nat>,
    precio: Option<nat>,
    proveedor: Option<nat>,
    observacion: Option<nat>,
    fechaCompra: Option<nat>,
    garantiaHasta: Option<nat>)

  /** The four required fields have a column. */
  predicate RequiredMapped(m: map<string, nat>) {
    "nombre" in m && "tipo" in m && "area" in m && "estado" in m
  }

  function Lookup(m: map<string, nat>, campo: string): (r: Option<nat>)
    ensures r.Some? <==> campo in m
    ensures r.Some? ==> r.value == m[campo]
  {
    if campo in m then Some(m[campo]) else None
  }

  /** The mapping `mapeo_columnas` read field by field. */
  function ColumnasDe(m: map<string, nat>): Columnas
    requires RequiredMapped(m)
  {
    Columnas(m["nombre"], m["tipo"], m["area"], m["estado"],
             Lookup(m, "marca"), Lookup(m, "modelo"), Lookup(m, "precio"), Lookup(m, "proveedor"),
             Lookup(m, "observacion"), Lookup(m, "fecha_compra"), Lookup(m, "garantia_hasta"))
  }

  predicate Within(k: Option<nat>, width: nat) {
    k.Some? ==> k.value < width
  }

  /** Every column of the mapping exists in a row of this width. */
  predicate Fits(c: Columnas, width: nat) {
    c.nombre < width && c.tipo < width && c.area < width && c.estado < width &&
    Within(c.marca, width) && Within(c.modelo, width) && Within(c.precio, width) && Within(c.proveedor, width) &&
    Within(c.observacion, width) && Within(c.fechaCompra, width) && Within(c.garantiaHasta, width)
  }

  /** A mapping into `width` columns resolves into columns of that width. */
  lemma ColumnasDeFits(m: map<string, nat>, width: nat)
    requires RequiredMapped(m) && forall f :: f in m ==> m[f] < width
    ensures Fits(ColumnasDe(m), width)
  {
  }

  /** `str(row[col]).strip()` of a required field. */
  function Leer(row: seq<Cell>, k: nat): string
    requires k < |row|
  {
    Strip(Str(row[k]))
  }

  /** A required text that counts as missing: empty, or an empty cell printed as "nan". */
  predicate Missing(s: string) {
    s == "" || s == "nan"
  }

  /** The cell of an optional field, if the field has a column. */
  function Celda(row: seq<Cell>, k: Option<nat>): Option<Cell>
    requires Within(k, |row|)
  {
    if k.Some? then Some(row[k.value]) else None
  }

  /** An optional text field: empty when unmapped or blank, else the trimmed text. */
  function Texto(c: Option<Cell>): string {
    match c
    case Some(Value(t)) => Strip(t)
    case _ => ""
  }

  /** How an optional price or date cell reads: nothing, a value, or an error on the cell's text. */
  datatype Lectura<T> = Ausente | Leida(valor: T) | Invalida(texto: string)

  /**
   * The price text with every '$' and ',' removed, then trimmed: every other
   * character except whitespace is kept as many times as `t` has it, and in
   * order (`RemoveConcat`); a text without '$' and ',' is only trimmed.
   */
  function LimpiarPrecio(t: string): (s: string)
    ensures '$' !in s && ',' !in s
    ensures forall c :: c in s ==> c in t
    ensures forall x :: x != '$' && x != ',' && !IsSpace(x) ==> multiset(s)[x] == multiset(t)[x]
    ensures '$' !in t && ',' !in t ==> s == Strip(t)
  {
    var sinPeso := Remove(t, '$');
    var u := Remove(sinPeso, ',');
    RemoveFrom(t, '$');
    RemoveFrom(sinPeso, ',');
    Strip(u)
  }

  /** The price cell: `float()` of the cleaned text when the cell is neither blank nor empty. */
  function LeerPrecio(c: Option<Cell>, floatOf: string -> Option<real>): (l: Lectura<real>)
    ensures l.Ausente? <==> c.None? || c == Some(Blank) || c == Some(Value(""))
    ensures l.Leida? ==> c.Some? && c.value.Value? && floatOf(LimpiarPrecio(c.value.text)) == Some(l.valor)
    ensures l.Invalida? ==> c == Some(Value(l.texto)) && floatOf(LimpiarPrecio(l.texto)).None?
  {
    match c
    case Some(Value(t)) =>
      if t == "" then Ausente
      else (match floatOf(LimpiarPrecio(t)) case Some(v) => Leida(v) case None => Invalida(t))
    case _ => Ausente
  }

  /** A date cell: `pd.to_datetime` of the text when the cell is neither blank nor empty. */
  function LeerFecha(c: Option<Cell>, toDate: string -> Option<Date>): (l: Lectura<Date>)
    ensures l.Ausente? <==> c.None? || c == Some(Blank) || c == Some(Value(""))
    ensures l.Leida? ==> c.Some? && c.value.Value? && toDate(c.value.text) == Some(l.valor)
    ensures l.Invalida? ==> c == Some(Value(l.texto)) && toDate(l.texto).None?
  {
    match c
    case Some(Value(t)) =>
      if t == "" then Ausente
      else (match toDate(t) case Some(d) => Leida(d) case None => Invalida(t))
    case _ => Ausente
  }

  /** The stored value: null unless the cell read. */
  function ValorDe<T>(l: Lectura<T>): (r: Option<T>)
    ensures r.Some? <==> l.Leida?
  {
    if l.Leida? then Some(l.valor) else None
  }

  /** The row error for a cell that did not read. */
  function Aviso<T>(l: Lectura<T>, fila: nat, que: string): (e: seq<string>)
    ensures |e| == if l.Invalida? then 1 else 0
  {
    if l.Invalida? then [EnFila(fila) + que + " '" + l.texto + "'"] else []
  }

  /** The row has a name and a type; otherwise it is skipped with one error. */
  predicate Completa(c: Columnas, row: seq<Cell>)
    requires Fits(c, |row|)
  {
    !Missing(Leer(row, c.nombre)) && !Missing(Leer(row, c.tipo))
  }

  /** The record for an accepted row, with the keys found or created for its area and estado. */
  function RegistroDe(row: seq<Cell>, c: Columnas, area: nat, estado: nat, fila: nat,
                      floatOf: string -> Option<real>, toDate: string -> Option<Date>): Registro
    requires Fits(c, |row|)
  {
    Registro(Leer(row, c.nombre), Leer(row, c.tipo), area, estado,
             Texto(Celda(row, c.marca)), Texto(Celda(row, c.modelo)),
             ValorDe(LeerPrecio(Celda(row, c.precio), floatOf)),
             Texto(Celda(row, c.proveedor)), Texto(Celda(row, c.observacion)),
             ValorDe(LeerFecha(Celda(row, c.fechaCompra), toDate)),
             ValorDe(LeerFecha(Celda(row, c.garantiaHasta), toDate)), fila)
  }

  /** The errors of an accepted row: one per price or date cell that does not read, in that order. */
  function AvisosDe(row: seq<Cell>, c: Columnas, fila: nat,
                    floatOf: string -> Option<real>, toDate: string -> Option<Date>): seq<string>
    requires Fits(c, |row|)
  {
    Aviso(LeerPrecio(Celda(row, c.precio), floatOf), fila, "Precio inv\U{E1}lido")
      + Aviso(LeerFecha(Celda(row, c.fechaCompra), toDate), fila, "Fecha de compra inv\U{E1}lida")
      + Aviso(LeerFecha(Celda(row, c.garantiaHasta), toDate), fila, "Fecha de garant\U{ED}a inv\U{E1}lida")
  }

  /** The error of a row without a name, or else without a type. */
  function ErrorIncompleta(row: seq<Cell>, c: Columnas, fila: nat): string
    requires Fits(c, |row|)
  {
    EnFila(fila) + (if Missing(Leer(row, c.nombre)) then "Nombre es requerido" else "Tipo es requerido")
  }

  /** The error of a lookup that matched several names. */
  function ErrorMultiple(model: string, names: seq<string>, nombre: string, fila: nat): string {
    EnFila(fila) + "Error procesando datos - " + MultipleMessage(model, CountIExact(names, nombre))
  }

  /**
   * One pass of the row loop of `procesar_importacion_excel` on the row at
   * `index`, which the messages call row index + 2.
   */
  function ProcesarFila(p: Progreso, c: Columnas, row: seq<Cell>, index: nat,
                        floatOf: string -> Option<real>, toDate: string -> Option<Date>): (r: Progreso)
    requires Fits(c, |row|)
    ensures p.registros <= r.registros && |r.registros| <= |p.registros| + 1
    ensures p.errores <= r.errores
    ensures |r.registros| == |p.registros| ==> |r.errores| == |p.errores| + 1
  {
    var fila := index + 2;
    if !Completa(c, row) then p.(errores := p.errores + [ErrorIncompleta(row, c, fila)])
    else
      match GetOrCreate(p.areas, Leer(row, c.area))
      case None => p.(errores := p.errores + [ErrorMultiple("Area", p.areas, Leer(row, c.area), fila)])
      case Some((areas, area)) =>
        match GetOrCreate(p.estados, Leer(row, c.estado))
        case None => p.(areas := areas, errores := p.errores + [ErrorMultiple("Estado", p.estados, Leer(row, c.estado), fila)])
        case Some((estados, estado)) =>
          Progreso(areas, estados, p.registros + [RegistroDe(row, c, area, estado, fila, floatOf, toDate)],
                   p.errores + AvisosDe(row, c, fila, floatOf, toDate))
  }

  /** Every row is as wide as the mapping needs. */
  predicate AllFit(c: Columnas, rows: seq<seq<Cell>>) {
    forall k :: 0 <= k < |rows| ==> Fits(c, |rows[k]|)
  }

  /** The whole row loop, one `ProcesarFila` per row in order. */
  function ProcesarFilas(p0: Progreso, c: Columnas, rows: seq<seq<Cell>>,
                         floatOf: string -> Option<real>, toDate: string -> Option<Date>): Progreso
    requires AllFit(c, rows)
  {
    if rows == [] then p0
    else ProcesarFila(ProcesarFilas(p0, c, rows[..|rows| - 1], floatOf, toDate), c, rows[|rows| - 1], |rows| - 1, floatOf, toDate)
  }

  /**
   * One pass of the row loop against the database: the row's area and estado
   * are looked up or created, and the record and errors are appended.
   */
  method LeerFila(db: Database, c: Columnas, row: seq<Cell>, index: nat,
                  floatOf: string -> Option<real>, toDate: string -> Option<Date>,
                  registros0: seq<Registro>, errores0: seq<string>)
    returns (registros: seq<Registro>, errores: seq<string>)
    requires db.Valid()
    requires Fits(c, |row|)
    modifies db
    ensures db.Valid()
    ensures Progreso(db.areas, db.estados, registros, errores)
         == ProcesarFila(Progreso(old(db.areas), old(db.estados), registros0, errores0), c, row, index, floatOf, toDate)
    ensures db.equipos == old(db.equipos) && db.nextId == old(db.nextId)
  {
    registros, errores := registros0, errores0;
    var fila := index + 2;
    var nombre := Leer(row, c.nombre);
    var tipo := Leer(row, c.tipo);
    var areaNombre := Leer(row, c.area);
    var estadoNombre := Leer(row, c.estado);
    if Missing(nombre) {
      errores := errores + [EnFila(fila) + "Nombre es requerido"];
      return;
    }
    if Missing(tipo) {
      errores := errores + [EnFila(fila) + "Tipo es requerido"];
      return;
    }
    var area := GetOrCreateArea(db, areaNombre);
    if area.None? {
      errores := errores + [ErrorMultiple("Area", db.areas, areaNombre, fila)];
      return;
    }
    var estado := GetOrCreateEstado(db, estadoNombre);
    if estado.None? {
      errores := errores + [ErrorMultiple("Estado", db.estados, estadoNombre, fila)];
      return;
    }
    var marca := Texto(Celda(row, c.marca));
    var modelo := Texto(Celda(row, c.modelo));
    var precio := LeerPrecio(Celda(row, c.precio), floatOf);
    var avisos := Aviso(precio, fila, "Precio inv\U{E1}lido");
    var proveedor := Texto(Celda(row, c.proveedor));
    var observacion := Texto(Celda(row, c.observacion));
    var compra := LeerFecha(Celda(row, c.fechaCompra), toDate);
    avisos := avisos + Aviso(compra, fila, "Fecha de compra inv\U{E1}lida");
    var garantia := LeerFecha(Celda(row, c.garantiaHasta), toDate);
    avisos := avisos + Aviso(garantia, fila, "Fecha de garant\U{ED}a inv\U{E1}lida");
    errores := errores + avisos;
    registros := registros + [Registro(nombre, tipo, area.value, estado.value, marca, modelo, ValorDe(precio),
                                       proveedor, observacion, ValorDe(compra), ValorDe(garantia), fila)];
  }

  /**
   * The row loop of `procesar_importacion_excel` against the database: areas
   * and estados are looked up or created as each row is read, and the
   * accepted rows and the errors come out in row order.
   */
  method LeerFilas(db: Database, c: Columnas, rows: seq<seq<Cell>>,
                   floatOf: string -> Option<real>, toDate: string -> Option<Date>)
    returns (registros: seq<Registro>, errores: seq<string>)
    requires db.Valid()
    requires AllFit(c, rows)
    modifies db
    ensures db.Valid()
    ensures Progreso(db.areas, db.estados, registros, errores)
         == ProcesarFilas(Progreso(old(db.areas), old(db.estados), [], []), c, rows, floatOf, toDate)
    ensures db.equipos == old(db.equipos) && db.nextId == old(db.nextId)
  {
    registros, errores := [], [];
    for index := 0 to |rows|
      invariant db.Valid()
      invariant Progreso(db.areas, db.estados, registros, errores)
             == ProcesarFilas(Progreso(old(db.areas), old(db.estados), [], []), c, rows[..index], floatOf, toDate)
      invariant db.equipos == old(db.equipos) && db.nextId == old(db.nextId)
    {
      assert rows[..index + 1][..index] == rows[..index];
      registros, errores := LeerFila(db, c, rows[index], index, floatOf, toDate, registros, errores);
    }
    assert rows[..|rows|] == rows;
  }

  /** How many rows have a name and a type. */
  function Completas(c: Columnas, rows: seq<seq<Cell>>): (n: nat)
    requires AllFit(c, rows)
    ensures n <= |rows|
  {
    if rows == [] then 0
    else Completas(c, rows[..|rows| - 1]) + (if Completa(c, rows[|rows| - 1]) then 1 else 0)
  }

  /** On tables without case-insensitive duplicates both lookups of a complete row succeed. */
  lemma ProcesarFilaAcepta(p: Progreso, c: Columnas, row: seq<Cell>, index: nat,
                           floatOf: string -> Option<real>, toDate: string -> Option<Date>)
    requires Fits(c, |row|)
    requires CaseDistinct(p.areas) && CaseDistinct(p.estados) && Completa(c, row)
    ensures GetOrCreate(p.areas, Leer(row, c.area)).Some? && GetOrCreate(p.estados, Leer(row, c.estado)).Some?
    ensures var (areas, area) := GetOrCreate(p.areas, Leer(row, c.area)).value;
            var (estados, estado) := GetOrCreate(p.estados, Leer(row, c.estado)).value;
            ProcesarFila(p, c, row, index, floatOf, toDate)
              == Progreso(areas, estados, p.registros + [RegistroDe(row, c, area, estado, index + 2, floatOf, toDate)],
                          p.errores + AvisosDe(row, c, index + 2, floatOf, toDate))
  {
    GetOrCreateKeepsDistinct(p.areas, Leer(row, c.area));
    GetOrCreateKeepsDistinct(p.estados, Leer(row, c.estado));
  }

  /** A row without a name, or else without a type, adds exactly one error and nothing else. */
  lemma ProcesarFilaOmitida(p: Progreso, c: Columnas, row: seq<Cell>, index: nat,
                            floatOf: string -> Option<real>, toDate: string -> Option<Date>)
    requires Fits(c, |row|) && !Completa(c, row)
    ensures var r := ProcesarFila(p, c, row, index, floatOf, toDate);
            r.registros == p.registros && r.areas == p.areas && r.estados == p.estados &&
            r.errores == p.errores + [ErrorIncompleta(row, c, index + 2)]
  {
  }

  /** One row on tables without case-insensitive duplicates: the tables only grow and stay duplicate-free. */
  lemma ProcesarFilaTablas(p: Progreso, c: Columnas, row: seq<Cell>, index: nat,
                           floatOf: string -> Option<real>, toDate: string -> Option<Date>)
    requires Fits(c, |row|)
    requires CaseDistinct(p.areas) && CaseDistinct(p.estados)
    ensures var r := ProcesarFila(p, c, row, index, floatOf, toDate);
            CaseDistinct(r.areas) && CaseDistinct(r.estados) &&
            |p.areas| <= |r.areas| && r.areas[..|p.areas|] == p.areas &&
            |p.estados| <= |r.estados| && r.estados[..|p.estados|] == p.estados
  {
    var r := ProcesarFila(p, c, row, index, floatOf, toDate);
    if Completa(c, row) {
      var areaNombre, estadoNombre := Leer(row, c.area), Leer(row, c.estado);
      GetOrCreateKeepsDistinct(p.areas, areaNombre);
      GetOrCreateKeepsDistinct(p.estados, estadoNombre);
      var ga, ge := GetOrCreate(p.areas, areaNombre).value, GetOrCreate(p.estados, estadoNombre).value;
      assert r.areas == ga.0 && r.estados == ge.0;
    } else {
      assert r.areas == p.areas && r.estados == p.estados by {
        ProcesarFilaOmitida(p, c, row, index, floatOf, toDate);
      }
    }
  }

  /**
   * A row with a name and a type, on tables without case-insensitive
   * duplicates, adds exactly one record, numbered index + 2, whose keys exist.
   */
  lemma ProcesarFilaRegistro(p: Progreso, c: Columnas, row: seq<Cell>, index: nat,
                             floatOf: string -> Option<real>, toDate: string -> Option<Date>)
    requires Fits(c, |row|)
    requires CaseDistinct(p.areas) && CaseDistinct(p.estados) && Completa(c, row)
    ensures var r := ProcesarFila(p, c, row, index, floatOf, toDate);
            |r.registros| == |p.registros| + 1 && r.registros[..|p.registros|] == p.registros &&
            r.registros[|p.registros|].fila == index + 2 &&
            1 <= r.registros[|p.registros|].area <= |r.areas| &&
            1 <= r.registros[|p.registros|].estado <= |r.estados|
  {
    ProcesarFilaAcepta(p, c, row, index, floatOf, toDate);
    var (areas, area) := GetOrCreate(p.areas, Leer(row, c.area)).value;
    var (estados, estado) := GetOrCreate(p.estados, Leer(row, c.estado)).value;
    var x := RegistroDe(row, c, area, estado, index + 2, floatOf, toDate);
    assert (p.registros + [x])[..|p.registros|] == p.registros;
  }

  /**
   * A price or date that does not read still lets the row through: its field
   * in the record is null, and one error per unreadable cell names the row
   * and the cell's text.
   */
  lemma AvisosSpec(row: seq<Cell>, c: Columnas, area: nat, estado: nat, fila: nat,
                   floatOf: string -> Option<real>, toDate: string -> Option<Date>)
    requires Fits(c, |row|)
    ensures var x := RegistroDe(row, c, area, estado, fila, floatOf, toDate);
            var precio := LeerPrecio(Celda(row, c.precio), floatOf);
            var compra := LeerFecha(Celda(row, c.fechaCompra), toDate);
            var garantia := LeerFecha(Celda(row, c.garantiaHasta), toDate);
            var e := AvisosDe(row, c, fila, floatOf, toDate);
            (x.precio.None? <==> !precio.Leida?) &&
            (x.fechaCompra.None? <==> !compra.Leida?) &&
            (x.garantiaHasta.None? <==> !garantia.Leida?) &&
            (precio.Invalida? ==> |e| > 0 && e[0] == EnFila(fila) + "Precio inv\U{E1}lido" + " '" + precio.texto + "'") &&
            |e| == (if precio.Invalida? then 1 else 0) + (if compra.Invalida? then 1 else 0)
                   + (if garantia.Invalida? then 1 else 0)
  {
    var precio := LeerPrecio(Celda(row, c.precio), floatOf);
    var compra := LeerFecha(Celda(row, c.fechaCompra), toDate);
    var garantia := LeerFecha(Celda(row, c.garantiaHasta), toDate);
    var e1 := Aviso(precio, fila, "Precio inv\U{E1}lido");
    var e2 := Aviso(compra, fila, "Fecha de compra inv\U{E1}lida");
    var e3 := Aviso(garantia, fila, "Fecha de garant\U{ED}a inv\U{E1}lida");
    var e := AvisosDe(row, c, fila, floatOf, toDate);
    assert e == e1 + e2 + e3;
    if precio.Invalida? {
      assert e[0] == e1[0];
    }
    var x := RegistroDe(row, c, area, estado, fila, floatOf, toDate);
    assert x.precio == ValorDe(precio) && x.fechaCompra == ValorDe(compra) && x.garantiaHasta == ValorDe(garantia);
  }

  lemma AllFitFront(c: Columnas, rows: seq<seq<Cell>>)
    requires AllFit(c, rows) && rows != []
    ensures AllFit(c, rows[..|rows| - 1]) && Fits(c, |rows[|rows| - 1]|)
  {
    var front := rows[..|rows| - 1];
    forall k | 0 <= k < |front| ensures Fits(c, |front[k]|) {
      assert front[k] == rows[k];
    }
  }

  /**
   * The whole loop from tables without case-insensitive duplicates: the tables
   * only grow and stay duplicate-free.
   */
  lemma {:induction false} ProcesarFilasTablas(areas0: seq<string>, estados0: seq<string>, c: Columnas, rows: seq<seq<Cell>>,
                                               floatOf: string -> Option<real>, toDate: string -> Option<Date>)
    requires AllFit(c, rows)
    requires CaseDistinct(areas0) && CaseDistinct(estados0)
    ensures var r := ProcesarFilas(Progreso(areas0, estados0, [], []), c, rows, floatOf, toDate);
            CaseDistinct(r.areas) && CaseDistinct(r.estados) &&
            |areas0| <= |r.areas| && r.areas[..|areas0|] == areas0 &&
            |estados0| <= |r.estados| && r.estados[..|estados0|] == estados0
  {
    if rows != [] {
      AllFitFront(c, rows);
      var front, last := rows[..|rows| - 1], rows[|rows| - 1];
      ProcesarFilasTablas(areas0, estados0, c, front, floatOf, toDate);
      var q := ProcesarFilas(Progreso(areas0, estados0, [], []), c, front, floatOf, toDate);
      var r := ProcesarFila(q, c, last, |rows| - 1, floatOf, toDate);
      ProcesarFilaTablas(q, c, last, |rows| - 1, floatOf, toDate);
      PrefixOfPrefix(r.areas, q.areas, areas0);
      PrefixOfPrefix(r.estados, q.estados, estados0);
    }
  }

  /** Records whose area and estado keys exist in tables of the given sizes. */
  predicate EnTablas(regs: seq<Registro>, nAreas: nat, nEstados: nat) {
    forall k :: 0 <= k < |regs| ==> 1 <= regs[k].area <= nAreas && 1 <= regs[k].estado <= nEstados
  }

  lemma EnTablasCrece(q: seq<Registro>, r: seq<Registro>, nAreas: nat, nAreas': nat, nEstados: nat, nEstados': nat)
    requires EnTablas(q, nAreas, nEstados) && nAreas <= nAreas' && nEstados <= nEstados'
    requires r == q || (|r| == |q| + 1 && r[..|q|] == q && 1 <= r[|q|].area <= nAreas' && 1 <= r[|q|].estado <= nEstados')
    ensures EnTablas(r, nAreas', nEstados')
  {
    if r != q {
      forall k | 0 <= k < |q| ensures r[k] == q[k] {
        assert r[..|q|][k] == r[k];
      }
    }
  }

  /** One row, whatever the tables hold: they only grow, and a record it adds has keys that exist. */
  lemma ProcesarFilaCrece(p: Progreso, c: Columnas, row: seq<Cell>, index: nat,
                          floatOf: string -> Option<real>, toDate: string -> Option<Date>)
    requires Fits(c, |row|)
    requires EnTablas(p.registros, |p.areas|, |p.estados|)
    ensures var r := ProcesarFila(p, c, row, index, floatOf, toDate);
            |p.areas| <= |r.areas| && |p.estados| <= |r.estados| &&
            EnTablas(r.registros, |r.areas|, |r.estados|)
  {
    var r := ProcesarFila(p, c, row, index, floatOf, toDate);
    if !Completa(c, row) {
      ProcesarFilaOmitida(p, c, row, index, floatOf, toDate);
      EnTablasCrece(p.registros, r.registros, |p.areas|, |r.areas|, |p.estados|, |r.estados|);
    } else {
      var ga, ge := GetOrCreate(p.areas, Leer(row, c.area)), GetOrCreate(p.estados, Leer(row, c.estado));
      if ga.None? {
        assert r.areas == p.areas && r.estados == p.estados && r.registros == p.registros;
      } else if ge.None? {
        assert r.areas == ga.value.0 && r.estados == p.estados && r.registros == p.registros;
        EnTablasCrece(p.registros, r.registros, |p.areas|, |r.areas|, |p.estados|, |r.estados|);
      } else {
        var x := RegistroDe(row, c, ga.value.1, ge.value.1, index + 2, floatOf, toDate);
        assert r.areas == ga.value.0 && r.estados == ge.value.0 && r.registros == p.registros + [x];
        assert (p.registros + [x])[..|p.registros|] == p.registros;
        EnTablasCrece(p.registros, r.registros, |p.areas|, |r.areas|, |p.estados|, |r.estados|);
      }
    }
  }

  /** The whole loop, whatever the tables hold: every record's keys exist in the final tables. */
  lemma {:induction false} ProcesarFilasEnTablas(areas0: seq<string>, estados0: seq<string>, c: Columnas, rows: seq<seq<Cell>>,
                                                 floatOf: string -> Option<real>, toDate: string -> Option<Date>)
    requires AllFit(c, rows)
    ensures var r := ProcesarFilas(Progreso(areas0, estados0, [], []), c, rows, floatOf, toDate);
            |areas0| <= |r.areas| && |estados0| <= |r.estados| && EnTablas(r.registros, |r.areas|, |r.estados|)
  {
    if rows != [] {
      AllFitFront(c, rows);
      var front := rows[..|rows| - 1];
      ProcesarFilasEnTablas(areas0, estados0, c, front, floatOf, toDate);
      var q := ProcesarFilas(Progreso(areas0, estados0, [], []), c, front, floatOf, toDate);
      ProcesarFilaCrece(q, c, rows[|rows| - 1], |rows| - 1, floatOf, toDate);
    }
  }

  /** Records whose keys exist, numbered 2 .. n + 1 in increasing order. */
  predicate Numerados(regs: seq<Registro>, n: nat, nAreas: nat, nEstados: nat) {
    (forall k :: 0 <= k < |regs| ==>
       1 <= regs[k].area <= nAreas && 1 <= regs[k].estado <= nEstados && 2 <= regs[k].fila <= n + 1) &&
    (forall j, k :: 0 <= j < k < |regs| ==> regs[j].fila < regs[k].fila)
  }

  lemma NumeradosStep(q: seq<Registro>, r: seq<Registro>, n: nat, nAreas: nat, nAreas': nat, nEstados: nat, nEstados': nat)
    requires Numerados(q, n, nAreas, nEstados) && nAreas <= nAreas' && nEstados <= nEstados'
    requires r == q ||
             (|r| == |q| + 1 && r[..|q|] == q && r[|q|].fila == n + 2 &&
              1 <= r[|q|].area <= nAreas' && 1 <= r[|q|].estado <= nEstados')
    ensures Numerados(r, n + 1, nAreas', nEstados')
  {
    if r != q {
      forall k | 0 <= k < |q| ensures r[k] == q[k] {
        assert r[..|q|][k] == r[k];
      }
    }
  }

  /**
   * The whole loop from tables without case-insensitive duplicates: records
   * come in row order numbered 2 .. |rows| + 1, and their keys exist in the
   * final tables.
   */
  lemma {:induction false} ProcesarFilasRegistros(areas0: seq<string>, estados0: seq<string>, c: Columnas, rows: seq<seq<Cell>>,
                                                  floatOf: string -> Option<real>, toDate: string -> Option<Date>)
    requires AllFit(c, rows)
    requires CaseDistinct(areas0) && CaseDistinct(estados0)
    ensures var r := ProcesarFilas(Progreso(areas0, estados0, [], []), c, rows, floatOf, toDate);
            Numerados(r.registros, |rows|, |r.areas|, |r.estados|)
  {
    if rows != [] {
      AllFitFront(c, rows);
      var front, last := rows[..|rows| - 1], rows[|rows| - 1];
      ProcesarFilasRegistros(areas0, estados0, c, front, floatOf, toDate);
      ProcesarFilasTablas(areas0, estados0, c, front, floatOf, toDate);
      var q := ProcesarFilas(Progreso(areas0, estados0, [], []), c, front, floatOf, toDate);
      ProcesarFilaNumerada(q, c, last, |front|, floatOf, toDate);
    }
  }

  /** One row keeps the records numbered and their keys inside the tables. */
  lemma ProcesarFilaNumerada(q: Progreso, c: Columnas, row: seq<Cell>, index: nat,
                             floatOf: string -> Option<real>, toDate: string -> Option<Date>)
    requires Fits(c, |row|)
    requires CaseDistinct(q.areas) && CaseDistinct(q.estados)
    requires Numerados(q.registros, index, |q.areas|, |q.estados|)
    ensures var r := ProcesarFila(q, c, row, index, floatOf, toDate);
            Numerados(r.registros, index + 1, |r.areas|, |r.estados|)
  {
    var r := ProcesarFila(q, c, row, index, floatOf, toDate);
    assert |q.areas| <= |r.areas| && |q.estados| <= |r.estados| by {
      ProcesarFilaTablas(q, c, row, index, floatOf, toDate);
    }
    if Completa(c, row) {
      ProcesarFilaRegistro(q, c, row, index, floatOf, toDate);
    } else {
      ProcesarFilaOmitida(q, c, row, index, floatOf, toDate);
    }
    NumeradosStep(q.registros, r.registros, index, |q.areas|, |r.areas|, |q.estados|, |r.estados|);
  }

  /**
   * The whole loop from tables without case-insensitive duplicates: every row
   * with a name and a type gives a record, and no other row does.
   */
  lemma {:induction false} ProcesarFilasCuenta(areas0: seq<string>, estados0: seq<string>, c: Columnas, rows: seq<seq<Cell>>,
                                               floatOf: string -> Option<real>, toDate: string -> Option<Date>)
    requires AllFit(c, rows)
    requires CaseDistinct(areas0) && CaseDistinct(estados0)
    ensures |ProcesarFilas(Progreso(areas0, estados0, [], []), c, rows, floatOf, toDate).registros| == Completas(c, rows)
  {
    if rows != [] {
      AllFitFront(c, rows);
      var front, last := rows[..|rows| - 1], rows[|rows| - 1];
      ProcesarFilasCuenta(areas0, estados0, c, front, floatOf, toDate);
      ProcesarFilasTablas(areas0, estados0, c, front, floatOf, toDate);
      var q := ProcesarFilas(Progreso(areas0, estados0, [], []), c, front, floatOf, toDate);
      if Completa(c, last) {
        ProcesarFilaRegistro(q, c, last, |rows| - 1, floatOf, toDate);
      } else {
        ProcesarFilaOmitida(q, c, last, |rows| - 1, floatOf, toDate);
      }
    }
  }

  lemma PrefixOfPrefix(c: seq<string>, b: seq<string>, a: seq<string>)
    requires |b| <= |c| && c[..|b|] == b && |a| <= |b| && b[..|a|] == a
    ensures c[..|a|] == a
  {
    assert c[..|a|] == c[..|b|][..|a|];
  }

  // ---------------------------------------------------------------------------
  // The import as a whole
  // ---------------------------------------------------------------------------

  /** A mapping found for a header row names the four required fields and columns inside the row. */
  lemma MapearFits(columns: seq<string>)
    requires Mapear(columns).Ok?
    ensures RequiredMapped(Mapear(columns).value)
    ensures forall f :: f in Mapear(columns).value ==> Mapear(columns).value[f] < |columns|
  {
    MapearSpec(columns);
    var m := Mapear(columns).value;
    var campos := Requeridos + Opcionales;
    assert Requeridos[0].nombre in m && Requeridos[1].nombre in m && Requeridos[2].nombre in m && Requeridos[3].nombre in m;
    forall f | f in m ensures m[f] < |columns| {
      var i :| 0 <= i < |campos| && campos[i].nombre == f;
    }
  }

  /** Every row of the sheet has the width of the header row. */
  predicate Rectangular(rows: seq<seq<Cell>>) {
    forall i :: 0 <= i < |rows| ==> |rows[i]| == |rows[0]|
  }

  /** The names pandas gives the header cells ("Unnamed: k" for an empty one), trimmed and lowered. */
  function Encabezados(header: seq<Cell>): (names: seq<string>)
    ensures |names| == |header|
    ensures forall k :: 0 <= k < |names| ==> Lower(names[k]) == names[k]
  {
    seq(|header|, k requires 0 <= k < |header| => NombreColumna(header[k], k))
  }

  /** The name of header cell `k`; it is already in lower case. */
  function NombreColumna(c: Cell, k: nat): (n: string)
    ensures Lower(n) == n
  {
    match c
    case Blank =>
      var n := "unnamed: " + Digits(k);
      assert forall i :: 0 <= i < |n| ==> !('A' <= n[i] <= 'Z') && !('\U{C0}' <= n[i] <= '\U{DE}') by {
        forall i | 0 <= i < |n| ensures !('A' <= n[i] <= 'Z') && !('\U{C0}' <= n[i] <= '\U{DE}') {
          if i >= 9 { assert n[i] == Digits(k)[i - 9]; }
        }
      }
      n
    case Value(t) =>
      LowerIdem(Strip(t));
      ColumnName(t)
  }

  /** What `procesar_importacion_excel` returns: a rejection message, or the records and the row errors. */
  datatype Importacion = Rechazada(mensaje: string) | Procesada(registros: seq<Registro>, errores: seq<string>)

  /**
   * `procesar_importacion_excel`: validate the sheet, map its header row to
   * fields, then read the data rows, whose first is sheet row 2.
   */
  method ProcesarImportacion(db: Database, wb: Workbook,
                             floatOf: string -> Option<real>, toDate: string -> Option<Date>)
    returns (r: Importacion)
    requires db.Valid()
    requires wb.Readable? ==> Rectangular(wb.rows)
    modifies db
    ensures db.Valid() && db.equipos == old(db.equipos)
    ensures !ValidacionDe(wb, false).valido ==>
              r == Rechazada(ValidacionDe(wb, false).mensaje) && db.areas == old(db.areas) && db.estados == old(db.estados)
    ensures ValidacionDe(wb, false).valido && Mapear(Encabezados(wb.rows[0])).Err? ==>
              r == Rechazada(Mapear(Encabezados(wb.rows[0])).error) && db.areas == old(db.areas) && db.estados == old(db.estados)
    ensures ValidacionDe(wb, false).valido && Mapear(Encabezados(wb.rows[0])).Ok? ==>
              var m := Mapear(Encabezados(wb.rows[0])).value;
              r.Procesada? && RequiredMapped(m) && AllFit(ColumnasDe(m), wb.rows[1..]) &&
              Progreso(db.areas, db.estados, r.registros, r.errores)
                == ProcesarFilas(Progreso(old(db.areas), old(db.estados), [], []), ColumnasDe(m), wb.rows[1..], floatOf, toDate)
  {
    var v := ValidarArchivoCorregido(wb);
    if !v.valido {
      return Rechazada(v.mensaje);
    }
    var mapeo := MapColumns(Encabezados(wb.rows[0]));
    if mapeo.Err? {
      return Rechazada(mapeo.error);
    }
    var columns := Encabezados(wb.rows[0]);
    MapearFits(columns);
    ColumnasDeFits(mapeo.value, |columns|);
    var c := ColumnasDe(mapeo.value);
    var rows := wb.rows[1..];
    assert AllFit(c, rows) by {
      forall k | 0 <= k < |rows| ensures Fits(c, |rows[k]|) {
        assert rows[k] == wb.rows[k + 1];
      }
    }
    var registros, errores := LeerFilas(db, c, rows, floatOf, toDate);
    r := Procesada(registros, errores);
  }

  // ---------------------------------------------------------------------------
  // Bulk creation (crear_equipos_masivo)
  // ---------------------------------------------------------------------------

  /** The columns `Equipo.objects.create(**datos)` stores for a record: no serial yet, no maintenance date. */
  function DatosDe(r: Registro): Datos {
    Datos(r.nombre, r.tipo, "", r.observacion, r.marca, r.modelo, r.precio, r.proveedor,
          r.fechaCompra, r.garantiaHasta, None, r.area, r.estado)
  }

  /** What the duplicate check compares: the name ignoring case, and the area. */
  function Clave(nombre: string, area: nat): (string, nat) {
    (Lower(nombre), area)
  }

  /** The keys of the stored equipos. */
  function ClavesDe(filas: seq<Fila>): set<(string, nat)> {
    if filas == [] then {}
    else ClavesDe(filas[..|filas| - 1]) + {Clave(filas[|filas| - 1].datos.nombre, filas[|filas| - 1].datos.area)}
  }

  /**
   * `filter(nombre__iexact=..., area=...).exists()`: a stored equipo has the
   * key iff the key is among `ClavesDe`.
   */
  lemma {:induction false} ClavesDeSpec(filas: seq<Fila>)
    ensures forall i :: 0 <= i < |filas| ==> Clave(filas[i].datos.nombre, filas[i].datos.area) in ClavesDe(filas)
    ensures forall k :: k in ClavesDe(filas) ==>
              exists i :: 0 <= i < |filas| && Clave(filas[i].datos.nombre, filas[i].datos.area) == k
  {
    if filas != [] {
      var front := filas[..|filas| - 1];
      ClavesDeSpec(front);
      assert forall i :: 0 <= i < |front| ==> front[i] == filas[i];
    }
  }

  lemma ClavesDeAppend(filas: seq<Fila>, f: Fila)
    ensures ClavesDe(filas + [f]) == ClavesDe(filas) + {Clave(f.datos.nombre, f.datos.area)}
  {
    assert (filas + [f])[..|filas|] == filas;
  }

  /** Every record names an existing area. */
  predicate AreasExisten(regs: seq<Registro>, areas: seq<string>) {
    forall k :: 0 <= k < |regs| ==> 1 <= regs[k].area <= |areas|
  }

  /** The error for a record whose name already exists in its area. */
  function Duplicado(r: Registro, areas: seq<string>): string
    requires 1 <= r.area <= |areas|
  {
    EnFila(r.fila) + "Ya existe un equipo '" + r.nombre + "' en el \U{E1}rea '" + areas[r.area - 1] + "'"
  }

  /** The loop state of `crear_equipos_masivo`: the keys stored so far, the records created and the errors. */
  datatype Reparto = Reparto(claves: set<(string, nat)>, creados: seq<Registro>, errores: seq<string>)

  /** One record: reported when its key is already stored, else created, storing its key. */
  function Repartir(p: Reparto, r: Registro, areas: seq<string>): (q: Reparto)
    requires 1 <= r.area <= |areas|
    ensures p.creados <= q.creados && p.errores <= q.errores && p.claves <= q.claves
    ensures |q.creados| + |q.errores| == |p.creados| + |p.errores| + 1
    ensures Clave(r.nombre, r.area) in q.claves
  {
    if Clave(r.nombre, r.area) in p.claves then p.(errores := p.errores + [Duplicado(r, areas)])
    else Reparto(p.claves + {Clave(r.nombre, r.area)}, p.creados + [r], p.errores)
  }

  /** The records in order, starting from the keys already stored. */
  function RepartirTodos(claves: set<(string, nat)>, regs: seq<Registro>, areas: seq<string>): Reparto
    requires AreasExisten(regs, areas)
  {
    if regs == [] then Reparto(claves, [], [])
    else Repartir(RepartirTodos(claves, regs[..|regs| - 1], areas), regs[|regs| - 1], areas)
  }

  /** Every record has exactly one outcome: created, or reported. */
  lemma {:induction false} RepartoCuenta(claves: set<(string, nat)>, regs: seq<Registro>, areas: seq<string>)
    requires AreasExisten(regs, areas)
    ensures |RepartirTodos(claves, regs, areas).creados| + |RepartirTodos(claves, regs, areas).errores| == |regs|
  {
    if regs != [] {
      RepartoCuenta(claves, regs[..|regs| - 1], areas);
    }
  }

  /** Records whose keys are not in `claves` and differ pairwise, each one of `regs`. */
  predicate ClavesNuevas(creados: seq<Registro>, claves: set<(string, nat)>, regs: seq<Registro>) {
    (forall k :: 0 <= k < |creados| ==> Clave(creados[k].nombre, creados[k].area) !in claves && creados[k] in regs) &&
    (forall j, k :: 0 <= j < k < |creados| ==>
       Clave(creados[j].nombre, creados[j].area) != Clave(creados[k].nombre, creados[k].area))
  }

  /**
   * The created records have keys that were not stored and that differ
   * pairwise, and each is an input record; the stored keys only grow and
   * include every created key.
   */
  lemma {:induction false} RepartoClaves(claves: set<(string, nat)>, regs: seq<Registro>, areas: seq<string>)
    requires AreasExisten(regs, areas)
    ensures var p := RepartirTodos(claves, regs, areas);
            claves <= p.claves &&
            (forall k :: 0 <= k < |p.creados| ==> Clave(p.creados[k].nombre, p.creados[k].area) in p.claves) &&
            ClavesNuevas(p.creados, claves, regs)
  {
    if regs != [] {
      var front, r := regs[..|regs| - 1], regs[|regs| - 1];
      RepartoClaves(claves, front, areas);
      var q := RepartirTodos(claves, front, areas);
      var p := RepartirTodos(claves, regs, areas);
      forall k | 0 <= k < |q.creados| ensures q.creados[k] in regs {
        assert q.creados[k] in front;
      }
      if Clave(r.nombre, r.area) !in q.claves {
        assert p.creados == q.creados + [r];
        forall k | 0 <= k < |p.creados|
          ensures Clave(p.creados[k].nombre, p.creados[k].area) !in claves && p.creados[k] in regs
        {
          if k < |q.creados| {
            assert p.creados[k] == q.creados[k];
          }
        }
        forall j, k | 0 <= j < k < |p.creados|
          ensures Clave(p.creados[j].nombre, p.creados[j].area) != Clave(p.creados[k].nombre, p.creados[k].area)
        {
          assert p.creados[j] == q.creados[j];
          if k < |q.creados| {
            assert p.creados[k] == q.creados[k];
          }
        }
      }
    }
  }

  /** The keys of some records. */
  function ClavesDeRegistros(regs: seq<Registro>): set<(string, nat)> {
    if regs == [] then {}
    else ClavesDeRegistros(regs[..|regs| - 1]) + {Clave(regs[|regs| - 1].nombre, regs[|regs| - 1].area)}
  }

  /** A key no record has is not among their keys. */
  lemma {:induction false} ClavesDeRegistrosFuera(regs: seq<Registro>, x: (string, nat))
    requires forall k :: 0 <= k < |regs| ==> Clave(regs[k].nombre, regs[k].area) != x
    ensures x !in ClavesDeRegistros(regs)
  {
    if regs != [] {
      var front := regs[..|regs| - 1];
      forall k | 0 <= k < |front| ensures Clave(front[k].nombre, front[k].area) != x {
        assert front[k] == regs[k];
      }
      ClavesDeRegistrosFuera(front, x);
    }
  }

  /** Records with distinct keys, none of them stored yet, are all created, nothing is reported, and their keys are stored. */
  lemma {:induction false} RepartoSinConflictos(claves: set<(string, nat)>, regs: seq<Registro>, areas: seq<string>)
    requires AreasExisten(regs, areas)
    requires forall k :: 0 <= k < |regs| ==> Clave(regs[k].nombre, regs[k].area) !in claves
    requires forall j, k :: 0 <= j < k < |regs| ==> Clave(regs[j].nombre, regs[j].area) != Clave(regs[k].nombre, regs[k].area)
    ensures RepartirTodos(claves, regs, areas).creados == regs
    ensures RepartirTodos(claves, regs, areas).errores == []
    ensures RepartirTodos(claves, regs, areas).claves == claves + ClavesDeRegistros(regs)
  {
    if regs != [] {
      var front, r := regs[..|regs| - 1], regs[|regs| - 1];
      RepartoSinConflictos(claves, front, areas);
      forall k | 0 <= k < |front| ensures Clave(front[k].nombre, front[k].area) != Clave(r.nombre, r.area) {
        assert front[k] == regs[k];
      }
      ClavesDeRegistrosFuera(front, Clave(r.nombre, r.area));
      assert front + [r] == regs;
    }
  }

  /** A created equipo holds the record's columns, with the serial `save` assigned. */
  predicate Corresponde(f: Fila, r: Registro) {
    f.datos == DatosDe(r).(numeroSerie := f.datos.numeroSerie)
  }

  /** Created equipos matching records, position by position. */
  predicate Corresponden(creados: seq<Fila>, regs: seq<Registro>) {
    |creados| == |regs| && forall k :: 0 <= k < |creados| ==> Corresponde(creados[k], regs[k])
  }

  lemma CorrespondenAppend(creados: seq<Fila>, regs: seq<Registro>, f: Fila, r: Registro)
    requires Corresponden(creados, regs) && Corresponde(f, r)
    ensures Corresponden(creados + [f], regs + [r])
  {
  }

  /** `Equipo.objects.create(**datos)` for a record: a new equipo saved under the next key, with the corrected, free serial. */
  method Crear(db: Database, r: Registro) returns (f: Fila)
    requires db.Valid()
    requires 1 <= r.area <= |db.areas| && 1 <= r.estado <= |db.estados|
    modifies db
    ensures db.Valid()
    ensures db.areas == old(db.areas) && db.estados == old(db.estados)
    ensures db.equipos == old(db.equipos) + [f]
    ensures Corresponde(f, r) && f.datos.numeroSerie == NextSerial(old(db.Serials()), r.tipo)
  {
    var e := new Equipo(DatosDe(r));
    ghost var filas, next := db.equipos, db.nextId;
    var saved := e.Save(db);
    f := Fila(e.id.value, e.Snapshot());
    StoredAppends(filas, f, next, |db.areas|, |db.estados|);
  }

  /**
   * One pass of the loop of `crear_equipos_masivo`: a record whose name
   * (ignoring case) already exists in its area is reported; any other is
   * created.
   */
  method CrearFila(db: Database, r: Registro) returns (creado: Option<Fila>, error: Option<string>)
    requires db.Valid()
    requires 1 <= r.area <= |db.areas| && 1 <= r.estado <= |db.estados|
    modifies db
    ensures db.Valid()
    ensures db.areas == old(db.areas) && db.estados == old(db.estados)
    ensures Clave(r.nombre, r.area) in ClavesDe(old(db.equipos)) ==>
              creado.None? && error == Some(Duplicado(r, db.areas)) && db.equipos == old(db.equipos)
    ensures Clave(r.nombre, r.area) !in ClavesDe(old(db.equipos)) ==>
              creado.Some? && error.None? && db.equipos == old(db.equipos) + [creado.value] &&
              Corresponde(creado.value, r) &&
              ClavesDe(db.equipos) == ClavesDe(old(db.equipos)) + {Clave(r.nombre, r.area)}
  {
    if Clave(r.nombre, r.area) in ClavesDe(db.equipos) {
      return None, Some(Duplicado(r, db.areas));
    }
    ghost var filas := db.equipos;
    var f := Crear(db, r);
    ClavesDeAppend(filas, f);
    return Some(f), None;
  }

  /** One iteration of `crear_equipos_masivo`: the record is reported or created, as `Repartir` says. */
  method CrearPaso(db: Database, r: Registro, ghost base: seq<Fila>, creados: seq<Fila>, errores: seq<string>,
                   ghost admitidos: seq<Registro>)
    returns (creados': seq<Fila>, errores': seq<string>, ghost admitidos': seq<Registro>)
    requires db.Valid()
    requires 1 <= r.area <= |db.areas| && 1 <= r.estado <= |db.estados|
    requires db.equipos == base + creados && Corresponden(creados, admitidos)
    modifies db
    ensures db.Valid()
    ensures db.areas == old(db.areas) && db.estados == old(db.estados)
    ensures db.equipos == base + creados' && Corresponden(creados', admitidos')
    ensures Reparto(ClavesDe(db.equipos), admitidos', errores') ==
            Repartir(Reparto(ClavesDe(old(db.equipos)), admitidos, errores), r, db.areas)
  {
    var creado, error := CrearFila(db, r);
    if error.Some? {
      creados', errores', admitidos' := creados, errores + [error.value], admitidos;
    } else {
      CorrespondenAppend(creados, admitidos, creado.value, r);
      creados', errores', admitidos' := creados + [creado.value], errores, admitidos + [r];
    }
  }

  /**
   * `crear_equipos_masivo`: each record is checked against the equipos
   * stored so far, including the ones this loop created, and is either
   * reported as a duplicate or created through `Equipo.save`.
   */
  method CrearEquiposMasivo(db: Database, regs: seq<Registro>) returns (creados: seq<Fila>, errores: seq<string>)
    requires db.Valid()
    requires AreasExisten(regs, db.areas)
    requires forall k :: 0 <= k < |regs| ==> 1 <= regs[k].estado <= |db.estados|
    modifies db
    ensures db.Valid()
    ensures db.areas == old(db.areas) && db.estados == old(db.estados)
    ensures db.equipos == old(db.equipos) + creados
    ensures var p := RepartirTodos(ClavesDe(old(db.equipos)), regs, db.areas);
            errores == p.errores && Corresponden(creados, p.creados)
  {
    creados, errores := [], [];
    ghost var admitidos: seq<Registro> := [];
    ghost var areas, base := db.areas, db.equipos;
    for i := 0 to |regs|
      invariant db.Valid()
      invariant db.areas == areas && db.estados == old(db.estados)
      invariant db.equipos == base + creados && Corresponden(creados, admitidos)
      invariant RepartirTodos(ClavesDe(base), regs[..i], areas) == Reparto(ClavesDe(db.equipos), admitidos, errores)
    {
      assert regs[..i + 1][..i] == regs[..i];
      creados, errores, admitidos := CrearPaso(db, regs[i], base, creados, errores, admitidos);
    }
    assert regs[..|regs|] == regs;
  }
}

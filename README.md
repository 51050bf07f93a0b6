# Inventario de activos — a Dafny model of the equipment core

This project models the core of a Django inventory application. The
application records equipos (machines, appliances, IT equipment). Each
equipo belongs to an área and has an estado. The model covers:

- **Serial numbers** (`models.dfy`, module `Models`). `Equipo.save`
  gives every new equipo without a serial number one of the form
  `PFX-00001`. The three-letter prefix comes from the equipo's tipo, and
  the number is one past the largest serial already stored under that
  prefix. The code's rule is modelled as written (`SerialAsWritten`), and
  two of its defects are shown under Findings. `Equipo.save` in the model
  assigns the corrected serial (`NextSerial`): its prefix is made of
  letters only, and its number is one past the largest stored number,
  compared as numbers. This file also models the store itself (areas, estados, equipos
  and the next primary key) as a `Database` class whose `Write` enforces
  the unique serial column and the two foreign keys. The warranty and
  maintenance flags (`garantia_vigente`, `mantenimiento_proximo`,
  `mantenimiento_vencido`) are here too, with today's date as a parameter.
- **The Excel import** (`importer.dfy`, module `Importer`), in four steps:
  - the workbook check `validar_archivo_excel`;
  - the mapping of the header row onto the equipo fields by their aliases;
  - the reading of each data row, with `get` or `create` of its área and
    estado, the cleaning of the price, and a warning for every unreadable
    price or date;
  - the bulk creation `crear_equipos_masivo`, which reports every row whose
    name, ignoring case, already exists in its área, and creates each other
    row through `Equipo.save`.
- **The JSON views** (`views.dfy`, module `Views`):
  - `crear_equipo` and `editar_equipo`: their required fields, how they
    normalise the price and the dates, and the rule under which an edit may
    change a serial;
  - the response of `importar_equipos_excel`;
  - the colour and icon the dashboard gives each estado.
- **The access gates** (`decorators.dfy`, module `Decorators`):
  `requiere_permiso` and `requiere_rol`.
- **The per-state tally** (`reportes.dfy`, module `Reportes`) of the PDF
  and Excel reports.

`text.dfy` and `wrappers.dfy` hold the string helpers (Python's `strip`,
`lower`, `upper`, `split`, `in`, and code-point string order) and the
`Option`/`Result` types.

How things are represented:

- Dates are day numbers.
- Foreign keys are 1-based positions in the área and estado tables.
- The database's conversions are parameters that answer `None` where the
  database would refuse a value: JSON to text, date and key in the views,
  `float()` and `pd.to_datetime` in the import.
- A refused value makes a view answer its 500 response, modelled as
  `FalloInterno`.

The import module of the source does not run as written:

- its column and row loops iterate over `None` (`inventario/utils.py:391`,
  `402`, `411`);
- it uses `pd` without importing it (`inventario/utils.py:444`, `487`);
- the view unpacks the three results of `procesar_importacion_excel` into
  two names (`inventario/views.py:417`) and never calls
  `crear_equipos_masivo`.

The model follows the flow the code and its comments describe. The sheet
is validated. Its header cells, lower-cased and stripped (the normalisation
of `inventario/utils.py:383`, which the code has commented out), are mapped to fields. Then the data rows are
read, starting at sheet row 2. Finally the records are handed to
`crear_equipos_masivo`. The validation the model uses is the corrected one
described under Findings, not the exact comparison of the code.

## Model

| member | source | states |
|---|---|---|
| Models.Clean | inventario/models.py:65 | every character the cleaning keeps comes from the tipo and is an ASCII letter or whitespace |
| Models.PrefijoDe | inventario/models.py:68-79 | the choice among initials, first three letters and padded fallback always yields exactly three characters |
| Models.PrefijoAsWritten | inventario/models.py:63-79 | the prefix as the code computes it has exactly three characters, each an upper-case letter or whitespace |
| Models.Prefijo | inventario/models.py:63-79 | the prefix with the fallback taken from the cleaned words has exactly three ASCII upper-case letters for every tipo |
| Models.PrefijoVariasPalabras | inventario/models.py:68-70 | with two or more words the prefix is the upper-cased initials of the first three words, padded with X, and the code gives the same prefix |
| Models.PrefijoPalabraLarga | inventario/models.py:71-73 | a single word of three letters or more gives its first three letters upper-cased, and the code agrees |
| Models.PrefijoRespaldo | inventario/models.py:74-79 | no word, or one short word, gives that word upper-cased and padded with X to three characters |
| Models.PrefijoAsWrittenRespaldo | inventario/models.py:74-76 | without a word, or with one word shorter than three letters, the code's prefix is the first three characters of the cleaned tipo, padded with X and upper-cased |
| Models.PrefijoAgreesWithoutWhitespace | inventario/models.py:74-76 | when the cleaned tipo holds no whitespace, the code's prefix and the corrected prefix are equal |
| Models.PrefijoFallbackKeepsWhitespace | inventario/models.py:76 | the code's fallback on tipo "12 TV" yields " TV", whose first character is a space |
| Models.PrefijoFallbackCorrected | inventario/models.py:76 | the corrected fallback on "12 TV" yields "TVX" |
| Models.PrefijoEjemploDosPalabras | inventario/models.py:68-70 | "Aire Acondicionado" gives the prefix "AAX" |
| Models.PrefijoEjemploServidor | inventario/models.py:71-73 | "Servidor" gives the prefix "SER" |
| Models.PrefijoEjemplosCortos | inventario/models.py:74-79 | "TV" gives "TVX" and the empty tipo gives "XXX" |
| Models.PrefijoEjemploAcento | inventario/models.py:65-73 | the cleaning drops the accented letter of "Cámara" before the first three letters are taken, so the prefix is "CMA" |
| Models.ZeroPad5 | inventario/models.py:98 | the zero-padded number has at least five digits, all of them decimal digits, and they read back as the number |
| Models.ParseIntOfDigits | inventario/models.py:92 | `int()` of a non-empty run of digits is the value of those digits |
| Models.ParseInt | inventario/models.py:92 | `int()` accepts only a decimal literal, possibly signed and surrounded by whitespace, and without a minus sign its value is not negative |
| Models.ParseIntUnderscore | inventario/models.py:92 | `int("1_000")` is 1000: single underscores between digits are accepted and ignored |
| Models.DashField | inventario/models.py:92 | `split('-')[1]` exists iff the text has a dash, and holds no dash itself |
| Models.FieldNumber | inventario/models.py:92-95 | the number after the first dash is defined only when the text has a dash; otherwise the code's `except` applies |
| Models.FieldNumberOfDigits | inventario/models.py:92 | for a prefix without a dash, the field after the first dash of `prefix-digits` reads as the value of the digits |
| Models.FormatSerialRoundTrip | inventario/models.py:92-98 | a formatted serial starts with `prefix-`, and reading its number back gives the number written |
| Models.Candidates | inventario/models.py:86 | the serials considered are exactly the stored serials that start with `prefix-` |
| Models.MaxLex | inventario/models.py:86-87 | `Max('numero_serie')` returns one of the serials, and it is at least every other serial in string order |
| Models.NextNumberAsWritten | inventario/models.py:85-96 | the next number as the code computes it is at least 1 |
| Models.NextNumber | inventario/models.py:85-96 | the corrected next number is greater than the number of every stored serial of the prefix, and it is either 1 or exactly one more than the number of a stored serial of the prefix |
| Models.MaxCandidateUsed | inventario/models.py:85-96 | one past the largest number among the serials of the prefix is 1 or one past the number of one of those serials |
| Models.NextSerial | inventario/models.py:82-98 | the corrected serial is the letter prefix, a dash and at least five digits, reads back as the corrected next number, and is not held by any stored equipo |
| Models.SerialAsWritten | inventario/models.py:81-98 | the serial as the code assigns it is the code's three-character prefix, a dash and at least five digits, and reads back as the code's next number |
| Models.SerialAsWrittenIsNextSerial | inventario/models.py:81-98 | when the cleaned tipo has no whitespace and every stored serial of the prefix has five digits, the code's serial is the corrected one, and so it is free |
| Models.SerialAsWrittenHeld | inventario/models.py:86-99 | with ABC-99999 and ABC-100000 stored, tipo "Abc" gets ABC-100000 from the code, a serial already stored, so the unique column refuses the save; the corrected serial is free |
| Models.DigitsOfValue | inventario/models.py:98 | a run of digits without a leading zero is the decimal writing of its own value |
| Models.LexLeDigits | inventario/models.py:86-87 | for digit runs of equal length, string order and numeric order agree, in both directions |
| Models.NextNumberAgreesOnFiveDigits | inventario/models.py:86-96 | while every serial of the prefix has exactly five digits, the code's lexicographic maximum gives the same next number as the numeric rule |
| Models.NextNumberAsWrittenRepeats | inventario/models.py:86-98 | with ABC-99999 and ABC-100000 stored, the code picks 100000 again, which formats to a serial already stored; the numeric rule gives 100001 |
| Models.Database.Write | inventario/models.py:99 | a write of an admissible row updates the row with that key or appends it; the área and estado tables are unchanged and the store stays valid |
| Models.Database.CreateArea | inventario/utils.py:434 | `Area.objects.create` appends the name and returns its new key, changing nothing else |
| Models.Database.CreateEstado | inventario/utils.py:440 | `Estado.objects.create` appends the name and returns its new key, changing nothing else |
| Models.Equipo.constructor | inventario/models.py:38-61 | a new unsaved equipo holds exactly the given columns and has no key |
| Models.Equipo.Cargar | inventario/views.py:206 | an equipo loaded from a stored row holds that row's key and columns |
| Models.Equipo.Asignar | inventario/views.py:237-247 | the edit assigns every requested column, and keeps the key, the serial and the maintenance date |
| Models.Equipo.Save | inventario/models.py:81-99 | with the corrected serial rule: `save` assigns `NextSerial` exactly when the serial is empty, and stores the row exactly when its serial is free and its keys exist. A new equipo with existing keys is always stored, under the next key; an existing one keeps its key; a refused save changes nothing else |
| Models.Equipo.AsignarSerie | inventario/models.py:82-98 | with the corrected serial rule: an empty serial becomes `NextSerial` of the tipo, any other serial is kept, and with existing keys the resulting row is admissible |
| Models.Equipo.Escribir | inventario/models.py:99 | the row is written iff it is admissible, under its own key or else the next one; a refused write changes nothing |
| Models.FreshSerialAdmissible | inventario/models.py:82-99 | a row carrying the corrected serial is admissible as soon as its área and estado exist |
| Models.StoredAppends | inventario/models.py:99 | inserting under the next key appends the row to the table |
| Models.StoredKeepsValid | inventario/models.py:42-60 | writing an admissible row keeps keys unique, serials unique and foreign keys in range |
| Models.AssignedSerialIsFree | inventario/models.py:82-98 | no stored equipo holds the corrected serial |
| Models.Equipo.GarantiaVigente | inventario/models.py:101-105 | the warranty flag is raised only when a warranty date is set and today is not after it |
| Models.Equipo.MantenimientoProximo | inventario/models.py:107-113 | the upcoming-maintenance flag is raised only when a maintenance date is set and today is not after it |
| Models.Equipo.MantenimientoVencido | inventario/models.py:115-120 | the overdue flag is raised only when a maintenance date is set, and then the upcoming flag is not |
| Models.FlagsWithoutDates | inventario/models.py:101-120 | without a warranty date the warranty flag is false; without a maintenance date both maintenance flags are false |
| Models.MantenimientoFlagsExclusive | inventario/models.py:107-120 | maintenance is never both upcoming and overdue |
| Models.GarantiaBand | inventario/models.py:101-105 | the warranty flag is raised iff a warranty date is set and today is not after it |
| Models.MantenimientoBands | inventario/models.py:107-120 | overdue iff the date is before today, upcoming iff it is from today to 30 days ahead, neither iff it is more than 30 days ahead |
| Models.GarantiaLastDay | inventario/models.py:101-105 | a warranty valid today was valid on every earlier day, and it is valid on its last day but not on the day after |
| Importer.HeaderCells | inventario/utils.py:342 | the header list holds exactly cells 1 to 12 of the first row, with missing cells empty |
| Importer.FirstMissing | inventario/utils.py:344-346 | none missing iff every required column is present; otherwise the result is the first absent column, and all the columns before it are present |
| Importer.FindMissing | inventario/utils.py:344-346 | the loop over the required columns stops at the first missing one |
| Importer.FirstMissingIs | inventario/utils.py:344-346 | a column preceded only by present ones and itself absent is the one reported |
| Importer.ValidarArchivo | inventario/utils.py:328-351 | with the exact header comparison of the code: valid iff the workbook opens, has at least two rows and every required column equals a header cell |
| Importer.ValidarArchivoCorregido | inventario/utils.py:328-351 | with the loose comparison: valid iff the workbook opens, has at least two rows, and every required column, lower-cased, occurs inside one of the first twelve header cells, stripped and lower-cased |
| Importer.TemplateRow | inventario/utils.py:296-300 | the template's header row holds the twelve template headers in order |
| Importer.TemplateRejected | inventario/utils.py:341-346 | the code's validator refuses a sheet whose header row is the template's own, with "Falta la columna requerida: Nombre" |
| Importer.TemplateAccepted | inventario/utils.py:296-300 | the corrected validator accepts every sheet that has the template's header row and a data row |
| Importer.Encabezados | inventario/utils.py:383 | one column name per header cell, each already in lower case |
| Importer.NombreColumna | inventario/utils.py:383 | a header cell's column name, the stripped text or pandas' name for an empty cell, is in lower case |
| Importer.FirstMatch | inventario/utils.py:389-395 | the column found is the first whose name contains one of the aliases; none found iff no column contains any of them |
| Importer.FindColumn | inventario/utils.py:391-395 | the loop over the columns breaks at the first matching one |
| Importer.FirstMatchIs | inventario/utils.py:391-395 | a matching column preceded only by non-matching ones is the one found |
| Importer.FirstUnmatched | inventario/utils.py:389-398 | none iff every field has a matching column; otherwise the result is the first field without one, and all the fields before it have one |
| Importer.FirstUnmatchedIs | inventario/utils.py:389-398 | a field without a column preceded only by matched fields is the one reported |
| Importer.MapeoSpec | inventario/utils.py:386-405 | a field is in the mapping iff one of its aliases matches a column, and then it maps to the first such column; nothing else is mapped |
| Importer.FieldNamesDistinct | inventario/utils.py:365-380 | the required and optional fields have distinct names |
| Importer.MapearSpec | inventario/utils.py:386-405 | the mapping succeeds iff every required field has a column. On success it maps every required field, and each optional field exactly when it has a column. On failure the message names a required field and its aliases |
| Importer.MapColumns | inventario/utils.py:386-405 | the two loops build the mapping `Mapear` defines |
| Importer.MapRequired | inventario/utils.py:389-398 | the required loop returns the error of the first unmatched field, or else the mapping of every required field |
| Importer.MapOptional | inventario/utils.py:400-405 | the optional loop adds exactly the optional fields that have a column |
| Importer.MapeoSnoc | inventario/utils.py:389-405 | one more field updates the mapping at that field exactly when it has a column |
| Importer.SharedColumn | inventario/utils.py:389-398 | when the name field and the tipo field first match the same column, the mapping succeeds and maps both fields to that column |
| Importer.TwoFieldsOneColumn | inventario/utils.py:389-395 | a column "tipo de equipo" serves as both the name and the tipo column: the matching is by substring, and nothing stops one column from being used twice |
| Importer.CountIExact | inventario/utils.py:432 | the number of names equal to a name, ignoring case, is at most the number of names |
| Importer.GetOrCreate | inventario/utils.py:431-440 | `get` or `create` by name ignoring case. It fails iff two or more names match. With none it appends the name; with one it keeps the table. The key returned names a matching name, and the old table is a prefix of the new one |
| Importer.GetOrCreateIdempotent | inventario/utils.py:431-440 | a second `get` or `create` with the same name finds the same key and leaves the table as the first left it |
| Importer.GetOrCreateKeepsDistinct | inventario/utils.py:431-440 | on a table without two names equal ignoring case, `get` or `create` always succeeds and keeps the table so |
| Importer.MultipleMessage | inventario/utils.py:432-440 | the error `get` raises for several matches names the model, then the number of matches written in digits, or "more than 20" from 21 on, and ends with "!" |
| Importer.GetOrCreateArea | inventario/utils.py:431-434 | the área lookup changes the área table as `GetOrCreate` says, and changes nothing else |
| Importer.GetOrCreateEstado | inventario/utils.py:437-440 | the estado lookup changes the estado table as `GetOrCreate` says, and changes nothing else |
| Importer.LimpiarPrecio | inventario/utils.py:462 | the cleaned price text has no `$` and no `,`; every character comes from the cell's text, and every character other than `$`, `,` and whitespace occurs exactly as often as in it; a text without `$` and `,` is only stripped |
| Text.Remove | inventario/utils.py:462 | `replace(c, '')` keeps every other character exactly as many times, drops every `c`, and keeps a text without `c` unchanged |
| Text.RemoveConcat | inventario/utils.py:462 | removing a character from a concatenation removes it from each part, so the kept characters stay in order |
| Text.RemoveFrom | inventario/utils.py:462 | after removal the character is absent, and every character left was in the text |
| Importer.LeerPrecio | inventario/utils.py:457-464 | a price is absent iff the field is unmapped or its cell is blank or empty; it reads iff `float()` accepts the cleaned text, and is otherwise invalid, carrying the cell's text |
| Importer.LeerFecha | inventario/utils.py:481-498 | a date is absent iff the field is unmapped or its cell is blank or empty; it reads iff `pd.to_datetime` accepts the text, and is otherwise invalid, carrying the cell's text |
| Importer.ProcesarFila | inventario/utils.py:411-516 | one row adds at most one record and keeps the earlier records and errors; a row that adds no record adds exactly one error |
| Importer.LeerFila | inventario/utils.py:411-516 | reading one row changes the área and estado tables and extends the records and errors exactly as `ProcesarFila` says, and stores no equipo |
| Importer.LeerFilas | inventario/utils.py:411-520 | reading all the rows in order yields what `ProcesarFilas` defines, and stores no equipo |
| Importer.ProcesarFilaOmitida | inventario/utils.py:422-428 | a row without a name, or else without a tipo, adds exactly its one error and changes nothing else |
| Importer.ProcesarFilaAcepta | inventario/utils.py:430-516 | a row with a name and a tipo looks up or creates its área and estado, adds its record numbered index + 2, and adds the warnings of its price and dates |
| Importer.ProcesarFilaTablas | inventario/utils.py:430-440 | one row only extends the área and estado tables and keeps them free of case-insensitive duplicates |
| Importer.ProcesarFilaRegistro | inventario/utils.py:500-516 | an accepted row adds exactly one record, numbered index + 2, whose área and estado keys exist |
| Importer.AvisosSpec | inventario/utils.py:455-498 | a price or date is null in the record iff it did not read; each unreadable one adds exactly one error, and the price error names the row and the cell's text |
| Importer.ProcesarFilasTablas | inventario/utils.py:411-440 | after all the rows the tables are extensions of the initial ones and still free of case-insensitive duplicates |
| Importer.ProcesarFilaCrece | inventario/utils.py:430-516 | one row keeps every record's área and estado keys inside the tables |
| Importer.ProcesarFilasEnTablas | inventario/utils.py:411-516 | after all the rows every record's keys exist in the final tables |
| Importer.ProcesarFilaNumerada | inventario/utils.py:413 | one row keeps the records in increasing sheet-row order, numbered between 2 and the row's own number |
| Importer.ProcesarFilasRegistros | inventario/utils.py:411-516 | after all the rows the records are numbered in increasing sheet-row order, with keys in the tables |
| Importer.ProcesarFilasCuenta | inventario/utils.py:411-428 | the number of records is exactly the number of rows that have a name and a tipo |
| Importer.MapearFits | inventario/utils.py:386-405 | every mapped field points at an existing column, and all four required fields are mapped |
| Importer.ProcesarImportacion | inventario/utils.py:353-521 | a sheet the corrected validator `ValidarArchivoCorregido` refuses yields its message, and a header row missing a required field yields the mapping error; neither changes the store. Otherwise the result is the reading of every data row from sheet row 2 on. No equipo is stored |
| Importer.ClavesDeSpec | inventario/utils.py:535-538 | a name and área pair is among the stored keys iff some stored equipo has that name, ignoring case, in that área |
| Importer.ClavesDeAppend | inventario/utils.py:543 | storing an equipo adds exactly its key |
| Importer.Repartir | inventario/utils.py:531-544 | one record is either created or reported, keeps what came before, and leaves its key among the stored keys |
| Importer.RepartoCuenta | inventario/utils.py:530-547 | every record is either created or reported, never both and never neither |
| Importer.RepartoClaves | inventario/utils.py:530-544 | created records are input records whose keys were not stored and differ pairwise; the stored keys only grow and include every created key |
| Importer.RepartoSinConflictos | inventario/utils.py:530-544 | records with fresh, pairwise different keys are all created, in order, with no error |
| Importer.Crear | inventario/utils.py:543 | `Equipo.objects.create` appends one equipo with the record's columns and the serial `NextSerial` gives |
| Importer.CrearFila | inventario/utils.py:532-544 | a record whose name already exists in its área is reported with the duplicate message and stores nothing; any other record is created and its key is stored |
| Importer.CrearPaso | inventario/utils.py:531-544 | one pass of the loop does what `Repartir` defines, on the store |
| Importer.CrearEquiposMasivo | inventario/utils.py:523-549 | the created equipos are appended to the store in order, they correspond one for one to the records `RepartirTodos` admits, and the errors are the ones it reports |
| Views.FaltaPrimero | inventario/views.py:91-97 | none iff every required field is present and truthy; otherwise the result is the first missing field, and every field before it is present |
| Views.FaltaPrimeroEs | inventario/views.py:92-93 | a missing field preceded only by present ones is the one reported |
| Views.CampoFaltante | inventario/views.py:210-216 | the loop returns the error naming the first missing required field, or none |
| Views.NormalizarPrecio | inventario/views.py:100-107 | an absent, null or empty price is null; a non-empty string is its `float()`, null when that fails; a number is kept |
| Views.NormalizarFecha | inventario/views.py:109-115 | a date is null iff it is absent, null or empty; otherwise it is passed on unchanged |
| Views.PedidoCongruente | inventario/views.py:117-131 | two requests whose fields read the same ask for the same columns |
| Views.PrecioInvalidoEsNulo | inventario/views.py:103-107 | a price string that `float()` refuses has the same effect as no price: the column is null |
| Views.FechaVaciaEsNula | inventario/views.py:109-115 | an empty date string has the same effect as no date |
| Views.CrearEquipo | inventario/views.py:83-144 | a missing required field is answered 400 naming it and stores nothing. Success appends one equipo under the next key with the requested columns and the serial `save` assigns. A request whose columns are accepted and admissible succeeds |
| Views.SerieEditadaSpec | inventario/views.py:249-257 | the serial stays the same unless a truthy, different serial is supplied |
| Views.RevisarSerie | inventario/views.py:249-257 | a requested serial is answered "El número de serie ya existe", leaving the equipo unchanged, iff it differs from the current one and another equipo holds it; otherwise the equipo takes the serial the rule gives |
| Views.Actualizar | inventario/views.py:236-263 | assigning, checking the serial and saving either refuses a serial held by another equipo or stores the edited row under its own key; a refusal changes nothing; and an edit with a non-empty serial whose row is admissible always succeeds |
| Views.Guardar | inventario/views.py:259-263 | the save of an edit succeeds iff the row is admissible, and then it updates the row in place |
| Views.EditarEquipo | inventario/views.py:204-263 | an unknown key gives the 500 response, and a missing field gives a 400 naming it. A supplied serial held by another equipo gives "El número de serie ya existe". Success updates the row with the requested columns, keeping its maintenance date. Every failure stores nothing. Conversely, a known key, all required fields, and an edited row with a non-empty serial that is admissible give success |
| Views.ResponderImportacion | inventario/views.py:420-436 | the response is a success iff at least one equipo was created; both outcomes carry every row error |
| Views.MensajeImportacionSpec | inventario/views.py:421-423 | the message starts with the created count and goes on exactly when there are errors, with a count that reads back as their number |
| Views.ImportarEquiposExcel | inventario/views.py:397-436 | no file, or a refused file, is answered 400 with its message and stores nothing. Otherwise the stored equipos are only extended, and the response is a success iff any were created |
| Views.EstadoColor | inventario/views.py:16-30 | the colour is one of the six Bootstrap classes the dashboard uses, and it is "primary" iff the state is not listed |
| Views.EstadoIcon | inventario/views.py:32-46 | the icon is a Font Awesome `fa-` name, and it is "fa-question-circle" iff the state is not listed |
| Views.EstadoDefaults | inventario/views.py:16-46 | a state gets the default colour iff it gets the default icon |
| Decorators.PermisoSinSesion | inventario/decorators.py:14-15 | an anonymous user is sent to the login page, whatever the permission |
| Decorators.RequierePermiso | inventario/decorators.py:13-70 | the login redirect is given iff the user is anonymous; any other outcome is the view, or a JSON 403 or a redirect to the list carrying the permission's message |
| Decorators.PermisoConcedido | inventario/decorators.py:26-70 | a logged-in user reaches the view iff the permission names no flag or the flag it names is set |
| Decorators.PermisoDenegado | inventario/decorators.py:26-68 | a refused permission is a JSON 403 for an AJAX request and a redirect to the list otherwise, except `exportar`, which always redirects; the message names the action |
| Decorators.PermisoSoloSuBandera | inventario/decorators.py:26-70 | the outcome depends only on the flag the permission names |
| Decorators.Normalizar | inventario/decorators.py:78-79 | a single role becomes the one-element list |
| Decorators.RequiereRol | inventario/decorators.py:83-106 | the login redirect is given iff the user is anonymous; any other outcome is the view or the refusal with the role message |
| Decorators.RolSpec | inventario/decorators.py:84-106 | anonymous users go to the login page. A logged-in user reaches the view iff the profile's role is in the list, and is otherwise refused as for a permission |
| Decorators.RolUnoComoLista | inventario/decorators.py:78-79 | a single role behaves as the list holding it |
| Reportes.ContarEstados | inventario/utils.py:120-123 | the tally loop (and its copy at `inventario/utils.py:251-254`) builds the dictionary `Contar` defines over the equipos' state names |
| Reportes.IncrementarGet | inventario/utils.py:122 | `d[k] = d.get(k, 0) + 1` adds one to the count of `k` and leaves every other count as it was |
| Reportes.IncrementarTotal | inventario/utils.py:122 | one increment raises the sum of the counts by one |
| Reportes.IncrementarClaves | inventario/utils.py:122 | one increment keeps the keys, adding `k` at the end when it is new |
| Reportes.IncrementarPositivas | inventario/utils.py:122 | one increment keeps every count positive |
| Reportes.ContarCuenta | inventario/utils.py:120-123 | each state's count is its number of equipos; a state no equipo has counts 0 |
| Reportes.ContarTotal | inventario/utils.py:120-123 | the counts sum to the number of equipos |
| Reportes.ContarClaves | inventario/utils.py:120-123 | the keys are the state names met, each once, in the order first met |
| Reportes.ContarPositivas | inventario/utils.py:120-123 | every listed state has at least one equipo |
| Reportes.PrimerasSpec | inventario/utils.py:120-123 | the state names in first-met order are distinct and are exactly the names of the equipos |

## Left out

- Serials are compared in code-point order. The database collation behind
  `Max('numero_serie')` may order them differently. The model's store does
  not contain equipos with two equal serials, which is what the unique
  column guarantees.
- `max_length` on the text columns, the digits of the `precio` decimal, the
  `sede`, `vida_util` and `fecha_registro` columns, and `__str__` are not
  modelled.
- `fecha_mantenimiento` is carried through unchanged. No operation in the
  core sets it.
- Dates are day numbers, and today's date is a parameter. Calendar
  arithmetic is left out.
- Decoding the JSON body is left out. The body is a map from field names to
  scalar JSON values, so the 400 for undecodable JSON is not produced.
- Django's conversions are parameters, because they belong to the framework:
  JSON values to text, dates and foreign keys, and `float()`.
- A missing área or estado key, an unknown equipo id, and any other
  exception all give `FalloInterno`. The source lists separate 400 answers
  for missing keys, but on save Django raises an integrity error, which
  reaches the general handler. The text of the 500 message is not modelled.
- The `equipo` object echoed in successful responses is not modelled.
- Debug `print` calls, `messages` storage, CSRF and the HTTP-method guards
  are left out.
- `Decorators`: the profile created for a user without one is passed in as a
  parameter (`porDefecto`). The decorators do not set its defaults
  themselves, and the database write that creates it is not modelled.
- The import is modelled as intended, not as it runs:
  - its loops over `None`, the missing `pd` import, and the two-name unpacking
    in the view are replaced by the intended flow, described at the top;
  - pandas' renaming of duplicate headers and its missing-value markers are
    left out: a blank cell reads as "nan";
  - `pd.to_datetime` and `float()` are parameters;
  - the workbook is a sequence of rows of equal width, which is what a
    DataFrame gives.
- The per-row `except` of `procesar_importacion_excel` is modelled only for
  the error `get` raises when two áreas or estados match a name ignoring
  case. No other exception can arise in the model.
- Models.Equipo.Save, Models.Equipo.AsignarSerie: they assign the corrected
  serial `NextSerial`, not the code's `SerialAsWritten`. The model therefore
  never produces what the code's rule produces:
  - a prefix with whitespace, such as " TV-00001" for tipo "12 TV";
  - a serial that is already stored, such as ABC-100000 when ABC-99999 and
    ABC-100000 are stored (`Models.SerialAsWrittenHeld`);
  - a number that starts again at 1 when the string maximum has no number,
    such as ABC-00001 when ABC-00005 and ABC-x are stored;
  - the refused insert that follows from such a serial: the 500 answer of
    `crear_equipo`, and the "Error al crear equipo" error of
    `crear_equipos_masivo` (`inventario/utils.py:546-547`).
  `Models.SerialAsWrittenIsNextSerial` states when the two rules agree.
- Importer.CrearFila, Importer.CrearEquiposMasivo, Importer.Repartir: the
  `except` of `crear_equipos_masivo` cannot be reached in the model. Every
  record's keys exist, and the corrected `save` gives every new equipo a
  free serial. The `pop('fila')` mutation of the caller's dictionaries is
  left out.
- `nombre__iexact` and the header normalisation use `Text.Lower`. It
  lower-cases the ASCII capitals and the Latin-1 capitals from À to Þ,
  except ×. Every other character compares as it is. Full Unicode case
  folding is left out.
- Models.ParseInt: it accepts ASCII decimal digits, with single underscores
  between them. Python's `int()` also accepts other Unicode decimal digits
  and other Unicode whitespace. Those are left out.
- Importer.Celda, Importer.Texto: an unmapped `marca` or `modelo` reads as
  the empty text. The code reads `row.get(mapeo.get('marca', ''), '')`
  (`inventario/utils.py:443`, `449`), which would read a column whose
  header is empty after stripping, if the sheet had one. The model does not
  look such a column up.
- `Incrementar` and `Contar` carry no contract of their own. What they
  compute is stated by the `Incrementar…` and `Contar…` lemmas in the table.
- The PDF and Excel rendering of the reports is left out. Only the
  per-state tally and the template's header row are modelled.
- Concurrent requests, which could race between choosing a serial and
  saving it, are left out.
- Views.ImportarEquiposExcel: its own contract states the response and that
  the store only grows. The rows read and the equipos created are stated by
  `Importer.ProcesarImportacion` and `Importer.CrearEquiposMasivo`, which it
  calls, and are not restated there.
- Models.NextNumberAsWritten: its contract says only that the number is
  positive. How it differs from the numeric rule is stated by
  `Models.NextNumberAgreesOnFiveDigits` and
  `Models.NextNumberAsWrittenRepeats`.

## Findings

| source | as written | input that shows it | evidently intended | confidence | as-written member | corrected member |
|---|---|---|---|---|---|---|
| inventario/models.py:76 | the fallback takes the first three characters of the cleaned tipo, whitespace included | tipo "12 TV" gives the prefix " TV", with a leading space | a prefix made of letters only, taken from the cleaned words: "TVX" | not executed | Models.PrefijoFallbackKeepsWhitespace | Models.PrefijoFallbackCorrected |
| inventario/models.py:86-92 | the next number is one past `Max('numero_serie')`, which compares serials as strings | with ABC-99999 and ABC-100000 stored, the string maximum is ABC-99999, so the next serial is ABC-100000, which is already stored and breaks the unique column | one past the largest number, compared as numbers: 100001 | not executed | Models.SerialAsWrittenHeld | Models.NextSerial |
| inventario/utils.py:341-346 | required columns must equal a header cell exactly | the header row of the template the application itself generates (`inventario/utils.py:296-300`, "Nombre*", "Tipo*", ...) is refused with "Falta la columna requerida: Nombre" | accept the template's headers, looking each required column up inside the stripped, lower-cased header cells | not executed | Importer.TemplateRejected | Importer.TemplateAccepted |

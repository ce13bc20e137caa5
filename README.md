# Incident reports client: a Dafny model

This project models the client-side logic of a mobile app for reporting incidents in Tarija. The app runs on React Native and talks to a Supabase backend. Citizens do three things: they confirm their location, attach up to three images and one video, and send a report. Administrators see every report, filter the list by status and type, and change a report's status or add notes. Users browse their history month by month.

The model covers these parts:

- the report form's state machine (`FormState`);
- the session context kept in device storage (`AdminContext`);
- the REST and storage helpers: request bodies, URLs, file names, and how replies are normalised or turned into errors (`SupabaseHelpers`);
- the report service singleton, which creates a report and then uploads its files, so that a failed upload never fails the report (`ReportServices`);
- the report form's attachment caps, removal, send guard and payload (`FormularioReportes`);
- the administrator dashboard's filters and per-status statistics (`DashboardAdmin`);
- the history screen's month list (`HistorialReportes`).

Shared JavaScript value semantics are in `Common`: truthiness, `||` fallbacks, `String(x)` and `padStart`.

Every reply from the network is an input. A `Response` is one of two things: a transport failure, or a status with a body that either parsed as JSON or did not. A parsed body is an array, a scalar, `null`, or an object whose fields are scalars; nested objects and arrays inside a field are not modelled (see "Left out"). Device storage is a `map<string, string>`. Its failures are a count of operations that succeed before the first one throws. The clock, the random token, the URL encoder and the file picker's result are parameters.

Where the written description of the system and the code disagree, the model follows the code:
- `logout` skips the in-memory reset when a storage removal throws.
- `login` never clears `isUsuario`, so both session flags can be true at once.
- `buildMesesRecientes` is modelled as written. Past 24 entries the month index goes negative, and past 12 entries keys repeat.

## Model

| member | source | states |
|---|---|---|
| Common.OrElse | lib/supabase-helpers.js:27 | `s \|\| fallback`: the text when it is non-empty, otherwise the fallback, and never empty when the fallback is not |
| Common.PadStart | app/components/HistorialReportes.js:56 | `padStart(width, c)`: unchanged when already wide enough, otherwise exactly `width` long, ending in the original text, with `c` in front |
| Common.NatToString | app/components/HistorialReportes.js:56 | `String(n)` of a natural number: non-empty, and one digit exactly when `n < 10` |
| Common.NatToStringDigits | app/components/HistorialReportes.js:56 | every character of `String(n)` is a decimal digit |
| FormState.Handler | lib/patrones/FormState.js:44-211 | each state class's handler for each event: a handler that fires always moves to a different state, never to Completado or Error; `reset` fires in every state but Inicial |
| FormState.Next | lib/patrones/FormState.js:44-211 | the state after an event: `reset` always lands in Inicial, a state is Completado or Error afterwards only if it was before, and Enviando is entered only by `enviar` from UbicacionConfirmada or ArchivosSeleccionados |
| FormState.InicialTransitions | lib/patrones/FormState.js:49-62 | from Inicial, `confirmarUbicacion` moves to UbicacionConfirmada and the other three events leave it unchanged |
| FormState.UbicacionConfirmadaTransitions | lib/patrones/FormState.js:74-93 | from UbicacionConfirmada, `seleccionarArchivos` goes to ArchivosSeleccionados, `enviar` to Enviando, and `confirmarUbicacion` is a no-op |
| FormState.ArchivosSeleccionadosTransitions | lib/patrones/FormState.js:105-121 | from ArchivosSeleccionados, `enviar` goes to Enviando, and `confirmarUbicacion` and `seleccionarArchivos` are no-ops |
| FormState.EnviandoTransitions | lib/patrones/FormState.js:133-148 | Enviando ignores every event except `reset` |
| FormState.CompletadoErrorTransitions | lib/patrones/FormState.js:155-211 | from Completado or Error, `confirmarUbicacion` and `seleccionarArchivos` restart the flow and `enviar` is a no-op |
| FormState.RunNeverEntersTerminal | lib/patrones/FormState.js:44-211 | no sequence of events from a non-terminal state ever reaches Completado or Error (no handler sets them) |
| FormState.EnviandoNeedsEnviar | lib/patrones/FormState.js:85-88 | reaching Enviando from Inicial takes an `enviar` event |
| FormState.EnviandoNeedsConfirmation | lib/patrones/FormState.js:49-52 | reaching Enviando from Inicial takes a `confirmarUbicacion` followed later by an `enviar` |
| FormState.ConfirmThenSend | lib/patrones/FormState.js:49-115 | confirm then send, with or without selecting files in between, reaches Enviando |
| FormState.FormContext.SetState | lib/patrones/FormState.js:15-21 | `setState` installs the new state, whose context is this context |
| FormState.FormContext.Dispatch | lib/patrones/FormState.js:23-37 | an event is delegated to the current state: a state with no handler stays; a handler that fires on a state with no context throws and changes nothing; otherwise the context gets a fresh state of the handler's kind, which for a well-formed context is `Next(old kind, event)` |
| AdminContext.Restore | lib/context/AdminContext.js:24-45 | the session found in storage: admin exactly when mode is "admin", the stored code is ADMIN2024 and a name is present; user exactly when mode is "usuario" and a user name is present |
| AdminContext.Perform | lib/context/AdminContext.js:47-93 | a sequence of storage writes or removals that stops at the first one that throws; when none succeeds, storage is unchanged |
| AdminContext.AdminLoginRestores | lib/context/AdminContext.js:47-63 | after a complete admin login, the next session check restores the admin with the given name, or "Admin" when it was empty |
| AdminContext.UsuarioLoginRestores | lib/context/AdminContext.js:65-77 | after a complete user login, the next session check restores the user with the given name, or "Usuario" when it was empty |
| AdminContext.LogoutForgets | lib/context/AdminContext.js:79-93 | after a complete logout the four keys are gone and the next session check restores nothing |
| AdminContext.AdminSession.CheckSession | lib/context/AdminContext.js:24-45 | reading storage sets the admin or user fields from `Restore`; a read failure or nothing restored leaves every session field as it was; storage is untouched and loading ends |
| AdminContext.AdminSession.Login | lib/context/AdminContext.js:47-63 | a wrong code changes nothing and reports "Código incorrecto"; the right code writes code, name (or "Admin") and mode in order and sets the admin fields only when all three writes succeed, else reports the save error; `isUsuario` is untouched |
| AdminContext.AdminSession.LoginUsuario | lib/context/AdminContext.js:65-77 | writes name and mode in order and sets the user fields only when both writes succeed; the admin fields are untouched |
| AdminContext.AdminSession.Logout | lib/context/AdminContext.js:79-93 | removes the four keys in order; clears the in-memory session only when every removal succeeds |
| SupabaseHelpers.ErrorFromDoc | lib/supabase-helpers.js:25-28 | the rejection for an error body: its truthy `message` as text, otherwise the fallback message, and a runtime TypeError for a `null` body |
| SupabaseHelpers.ReadJson | lib/supabase-helpers.js:122-130 | a GET settles with the parsed body exactly when the reply is ok and parses; an error reply with a parsed body rejects with `ErrorFromDoc`; a transport failure or an unparseable body rejects with that runtime error |
| SupabaseHelpers.FirstOrSelf | lib/supabase-helpers.js:32 | `Array.isArray(x) ? x[0] : x`: a non-array is itself, an array its first element, an empty array `undefined` |
| SupabaseHelpers.SingletonNormalisesLikeRow | lib/supabase-helpers.js:32 | a one-row array normalises to the row itself, like the bare row |
| SupabaseHelpers.FirstOrNull | lib/supabase-helpers.js:227 | the first row of a non-empty array, otherwise `null` |
| SupabaseHelpers.NormalisationsCompared | lib/supabase-helpers.js:32 | the two normalisations agree on non-empty arrays and differ on bare objects (`null` against the object) and on the empty array (`null` against `undefined`) |
| SupabaseHelpers.CrearReporteBody | lib/supabase-helpers.js:12-21 | the inserted row has exactly the six copied fields plus estado "Pendiente" and ciudad "Tarija" |
| SupabaseHelpers.CrearBodyIgnoresOtherFields | lib/supabase-helpers.js:12-21 | two data objects that agree on the six copied fields give the same row |
| SupabaseHelpers.CrearReporteRequest | lib/supabase-helpers.js:5-21 | a POST of JSON to the reports table whose body is `CrearReporteBody` of the data, with estado "Pendiente" and ciudad "Tarija" |
| SupabaseHelpers.CrearReporte | lib/supabase-helpers.js:4-37 | creation succeeds exactly on an ok, parsed reply, with the normalised first row; an error reply rejects with its `message` or "Error al crear reporte"; other failures are `ReadJson`'s; its own rejections have a non-empty message |
| SupabaseHelpers.LastSegment | lib/supabase-helpers.js:40-41 | `split(".").pop()`: the longest dot-free suffix of the name, preceded by a dot when shorter than the name |
| SupabaseHelpers.LastSegmentAfterDot | lib/supabase-helpers.js:40-41 | a name ending in "." and a dot-free extension yields that extension |
| SupabaseHelpers.FileExt | lib/supabase-helpers.js:40-41 | the extension is the name's last segment when that is non-empty, otherwise "mp4" for video and "jpg" otherwise; never empty, never contains a dot |
| SupabaseHelpers.DefaultExt | lib/supabase-helpers.js:41 | the fallback extension: "mp4" for video, "jpg" for anything else |
| SupabaseHelpers.StoragePathShape | lib/supabase-helpers.js:41-45 | the object path starts with the report id's folder and its last dot-separated segment is the derived extension |
| SupabaseHelpers.ContentType | lib/supabase-helpers.js:51 | "video/mp4" exactly for video, "image/jpeg" for everything else |
| SupabaseHelpers.UploadUrl | lib/supabase-helpers.js:54 | the object path can be read back from the upload URL after the bucket prefix |
| SupabaseHelpers.PublicUrl | lib/supabase-helpers.js:75 | the same object path can be read back from the public URL after the bucket's public prefix |
| SupabaseHelpers.AdjuntoRow | lib/supabase-helpers.js:83-89 | the inserted metadata row has exactly the five fields: report id, file type, public URL, size and original name |
| SupabaseHelpers.UploadAndRecord | lib/supabase-helpers.js:47-106 | once the file is read: the binary POST to the object's upload URL first, then, exactly when that reply is ok, the metadata insert with the object's public URL, the size and the original name; it succeeds exactly when the upload is ok and the insert reply is ok and parses, with the public URL and the normalised row; a rejected upload fails with its `message` or "Error al subir archivo" (or the runtime error), a rejected insert with its `message` or "Error al guardar referencia" |
| SupabaseHelpers.SubirArchivo | lib/supabase-helpers.js:39-112 | an upload makes no request and rejects when the file cannot be read; otherwise the requests, success and each error are those of `UploadAndRecord` for the derived storage path |
| SupabaseHelpers.UploadUrlIsNotTable | lib/supabase-helpers.js:54-77 | the storage upload URL is never the attachments table URL |
| SupabaseHelpers.RecordFollowsUpload | lib/supabase-helpers.js:53-91 | after the read, a request to the attachments table is only ever the second one, after an ok upload, and its row names that object's public URL and size |
| SupabaseHelpers.UploadBeforeRecord | lib/supabase-helpers.js:39-100 | a metadata insert is only ever the second request, after a successful binary upload of the same object, and its row records that object's public URL and the uploaded size |
| SupabaseHelpers.Step | lib/supabase-helpers.js:172-186 | one guarded `url +=`: the clause is added exactly when its filter is truthy, and nothing else changes |
| SupabaseHelpers.StepAscending | lib/supabase-helpers.js:172-186 | a guarded append keeps the clauses in the fixed order estado, tipo, desde, hasta, limit |
| SupabaseHelpers.FilterClausesPresence | lib/supabase-helpers.js:172-186 | each filter's clause is in the query exactly when that filter is truthy |
| SupabaseHelpers.FilterClausesOrdered | lib/supabase-helpers.js:169-186 | the order clause comes first and the filter clauses follow in fixed order |
| SupabaseHelpers.StepUrl | lib/supabase-helpers.js:172-186 | one guarded `url +=` on the text is the rendering of one `Step` on the clause list |
| SupabaseHelpers.OrderedQuery | lib/supabase-helpers.js:169 | the URL's start, `?order=timestamp_creado.desc`, followed by `&`-joined clauses is the query of the whole clause list |
| SupabaseHelpers.ObtenerTodosUrl | lib/supabase-helpers.js:168-186 | the accumulated URL is the reports path with the order clause and then exactly the clauses of the truthy filters, in order |
| SupabaseHelpers.ObtenerTodosReportes | lib/supabase-helpers.js:188-207 | settles with the parsed list exactly on an ok reply, and an error reply rejects with its message or "Error al obtener reportes" |
| SupabaseHelpers.SinFiltrosIsObtenerReportes | lib/supabase-helpers.js:114-115 | with no filters, the admin listing fetches the same URL as `obtenerReportes` |
| SupabaseHelpers.RangeFiltersAgree | lib/supabase-helpers.js:137-142 | the range URL's two clauses are the `desde`/`hasta` clauses the admin listing would build |
| SupabaseHelpers.ObtenerReportesPorRango | lib/supabase-helpers.js:144-163 | settles with the parsed list exactly on an ok reply, and an error reply rejects with its message or "Error al obtener reportes" |
| SupabaseHelpers.ObtenerReportes | lib/supabase-helpers.js:114-135 | settles with the parsed list exactly on an ok reply, and an error reply rejects with its message or "Error al obtener reportes" |
| SupabaseHelpers.PorIdUrl | lib/supabase-helpers.js:211 | the id's text can be read back from the URL after `?id=eq.` |
| SupabaseHelpers.ObtenerReportePorId | lib/supabase-helpers.js:210-232 | settles exactly on an ok, parsed reply, with the first row, or `null` for an empty result; an error reply rejects with its `message` or "Error al obtener reporte"; other failures are `ReadJson`'s |
| SupabaseHelpers.AdminOrNull | lib/supabase-helpers.js:238 | `adminNombre \|\| null` |
| SupabaseHelpers.PatchFailure | lib/supabase-helpers.js:258-271 | the PATCH error: raw text (or "Error desconocido") when unparseable, otherwise `message`, then `hint`, then the status-bearing RLS message |
| SupabaseHelpers.PatchOutcome | lib/supabase-helpers.js:253-279 | a PATCH settles exactly on an ok reply: the normalised row when the body parses, otherwise the fallback object |
| SupabaseHelpers.ActualizarEstadoRequest | lib/supabase-helpers.js:235-239 | the PATCH body has exactly `estado` and `admin_asignado` (the admin name or `null`) |
| SupabaseHelpers.ActualizarEstadoReporte | lib/supabase-helpers.js:234-284 | settles exactly on an ok reply; an unparseable ok body gives `{id, estado, admin_asignado}` with the raw admin name; a failure is `PatchFailure` |
| SupabaseHelpers.AgregarNotasRequest | lib/supabase-helpers.js:287-291 | the PATCH body has exactly `notas_admin` and `admin_asignado` |
| SupabaseHelpers.AgregarNotasAdmin | lib/supabase-helpers.js:286-336 | settles exactly on an ok reply; an unparseable ok body gives `{id, notas_admin, admin_asignado}`; a failure is `PatchFailure` |
| SupabaseHelpers.FallbackEchoesRawAdmin | lib/supabase-helpers.js:238-277 | with an empty admin name the request sends `null` but the unparseable-reply fallback echoes the empty string |
| SupabaseHelpers.ObtenerArchivosPorReporteUrl | lib/supabase-helpers.js:339 | the report id's text can be read back from the URL after `?reporte_id=eq.` |
| SupabaseHelpers.ObtenerArchivosPorReporte | lib/supabase-helpers.js:338-359 | settles with the parsed list exactly on an ok reply, and an error reply rejects with its message or "Error al obtener archivos" |
| ReportServices.TipoArchivo | lib/patrones/ReportService.js:30 | "imagen" exactly for `type === "image"`, "video" otherwise |
| ReportServices.ReporteId | lib/patrones/ReportService.js:29 | `reporte.id` throws a TypeError exactly for `null` or `undefined`, and reads the field of an object |
| ReportServices.FirstUnnamed | lib/patrones/ReportService.js:26-31 | the first file whose `split` would throw (no name), or the number of files |
| ReportServices.UnnamedAt | lib/patrones/ReportService.js:26-31 | the first file without a name is at `i` when every earlier file has a name and file `i` has none |
| ReportServices.CallsUpTo | lib/patrones/ReportService.js:26-32 | one `subirArchivo` call per file of the prefix, in order, each for the same report id with the file's uri, kind and name |
| ReportServices.Caught | lib/patrones/ReportService.js:33-40 | an upload with its `.then`/`.catch` never rejects, and fulfils with the upload's result exactly when the upload succeeds, `null` otherwise |
| ReportServices.All | lib/patrones/ReportService.js:42 | `Promise.all` fulfils exactly when every promise does, with their values in order, and otherwise rejects with one of their rejections |
| ReportServices.CaughtNeverRejects | lib/patrones/ReportService.js:26-42 | `Promise.all` of the caught uploads always fulfils, with each upload's result or `null` where it failed |
| ReportServices.IniciarSubidas | lib/patrones/ReportService.js:26-41 | the `map` callback throws exactly when some file has no name, after starting one call per file before it; the promises made are the caught uploads of those calls |
| ReportServices.CreateFailureStops | lib/patrones/ReportService.js:24 | a failed creation is the result and no upload is attempted |
| ReportServices.NoFilesNoUploads | lib/patrones/ReportService.js:25-44 | with no files (absent or empty) the created report is the result and no upload is attempted |
| ReportServices.UploadsIsolated | lib/patrones/ReportService.js:26-42 | once the report exists and is neither `null` nor `undefined`, every named file gets exactly one upload for its `id`, and the report is the result for every way the uploads can settle |
| ReportServices.CompletoFailsOnlyThere | lib/patrones/ReportService.js:21-46 | the whole call rejects exactly when creation fails, or when there are files and the report is `null`/`undefined` or some file has no name, however the uploads settle |
| ReportServices.ReportService.CrearReporteRapido | lib/patrones/ReportService.js:16-19 | is exactly `crearReporte`: settles when the creation reply is ok and parsed, with the normalised row |
| ReportServices.ReportService.CrearReporteCompleto | lib/patrones/ReportService.js:21-46 | for given upload outcomes, the result and the upload calls made are those of `CompletoResult`/`CompletoCalls`, which the lemmas above characterise, and each call's caught value is its result or `null` |
| ReportServices.ReportService.ObtenerReportes | lib/patrones/ReportService.js:48-68 | the service's own listing settles exactly as the helper `obtenerReportes` |
| ReportServices.ServiceRegistry.GetInstance | lib/patrones/ReportService.js:9-14 | the first call creates the instance and every later call returns that same instance |
| FormularioReportes.AsSeleccionado | app/components/FormularioReportes.js:165-172 | a picked asset is stored as "video" exactly when its type is "video", otherwise "image", with a non-empty name that is its own when it has one |
| FormularioReportes.Mapped | app/components/FormularioReportes.js:165-172 | one stored entry per picked asset |
| FormularioReportes.PickOutcome | app/components/FormularioReportes.js:143-174 | the pick is refused for images exactly when images would exceed 3, else for videos exactly when videos would exceed 1; otherwise the list is the old one followed by the new entries |
| FormularioReportes.CountSelAppend | app/components/FormularioReportes.js:143-153 | the `filter(...).length` count of a concatenation is the sum of the counts |
| FormularioReportes.CountByKinds | app/components/FormularioReportes.js:150-172 | a list whose entries have the kinds mapping gives the assets has as many videos as the assets, and as many images when every asset is an image or a video |
| FormularioReportes.CountMapped | app/components/FormularioReportes.js:150-172 | mapping keeps the number of videos, and the number of images when every asset is an image or a video |
| FormularioReportes.PickKeepsCaps | app/components/FormularioReportes.js:155-174 | an accepted pick never leaves more than 3 images or 1 video |
| FormularioReportes.OtherTypeSlipsPastImageCap | app/components/FormularioReportes.js:150-167 | an asset of another type is not counted as an image by the check but is stored as one: three images plus one such asset are accepted as four images |
| FormularioReportes.RemoveAtSpec | app/components/FormularioReportes.js:406-409 | removal by index drops exactly that entry and keeps the order; an index out of range changes nothing |
| FormularioReportes.RemoveAtKeepsCaps | app/components/FormularioReportes.js:406-409 | removal never breaks the caps |
| FormularioReportes.Capitalize | app/components/FormularioReportes.js:197 | same length, first character upper-cased, rest unchanged |
| FormularioReportes.EnviarData | app/components/FormularioReportes.js:195-201 | the data has exactly the four keys, the capitalised type and `ubicacion_confirmada: true` |
| FormularioReportes.SentBody | app/components/FormularioReportes.js:195-201 | the created row carries the capitalised type, no address or description, and estado "Pendiente" |
| FormularioReportes.ParaServicio | app/components/FormularioReportes.js:205-209 | a stored entry is handed over with its uri and type, its own name when non-empty, and otherwise "archivo.jpg" for an image or "archivo.mp4" for anything else |
| FormularioReportes.ParaServicioTodos | app/components/FormularioReportes.js:203-210 | one service file per stored entry, in order, and every one has a name (so no upload throws) |
| FormularioReportes.Seleccion | app/components/FormularioReportes.js:124-180 | the picker's answer gives the accepted pick's list exactly when the pick is accepted, and the old list on denied permission, cancel, a cap alert or a picker failure, each with its own alert; the caps are kept when every asset is an image or a video |
| FormularioReportes.EnviarOutcome | app/components/FormularioReportes.js:203-212 | sending from the form succeeds exactly when creation succeeds and, if there are files, the created report is neither `null` nor `undefined`; then every file gets one upload, however the uploads settle |
| FormularioReportes.ReportForm.SeleccionarTipo | app/components/FormularioReportes.js:275 | the incident type becomes the tapped one and nothing else changes |
| FormularioReportes.ReportForm.UbicacionObtenida | app/components/FormularioReportes.js:323 | the location becomes the given coordinates and nothing else changes |
| FormularioReportes.ReportForm.HandleConfirmarUbicacion | app/components/FormularioReportes.js:106-122 | the location becomes confirmed exactly when both coordinates are truthy (or it already was), and nothing else changes |
| FormularioReportes.ReportForm.HandleSubirArchivos | app/components/FormularioReportes.js:124-180 | the list and the alert are `Seleccion` of the old list and the picker's answer, and nothing else changes |
| FormularioReportes.ReportForm.QuitarArchivo | app/components/FormularioReportes.js:406-409 | the list is `RemoveAt` of the old list and keeps the caps, and nothing else changes |
| FormularioReportes.ReportForm.HandleEnviar | app/components/FormularioReportes.js:182-234 | nothing is sent and nothing changes unless the location is confirmed; otherwise the data, result and upload calls are those of `crearReporteCompleto` on the mapped files, the modal shows success exactly when it succeeds, both busy flags end false, and nothing else changes |
| FormularioReportes.ReportForm.PrepararEnvio | app/components/FormularioReportes.js:195-212 | the data is `EnviarData` of the form's type and location, and the result and calls are those of `crearReporteCompleto` on the form's files |
| FormularioReportes.ReportForm.MostrarResultado | app/components/FormularioReportes.js:213-233 | the modal shows the success or the error texts, both busy flags end false, and nothing else changes |
| DashboardAdmin.Toggle | app/components/admin/DashboardAdmin.js:262-287 | tapping the selected chip clears it and tapping another selects it |
| DashboardAdmin.ToggleTwice | app/components/admin/DashboardAdmin.js:262-287 | two taps on the same chip restore the selection when it was empty or that chip |
| DashboardAdmin.FiltrosDe | app/components/admin/DashboardAdmin.js:66-68 | the filter object has `estado` exactly when a status is selected and `tipo_incidente` exactly when a type is |
| DashboardAdmin.DashboardQuery | app/components/admin/DashboardAdmin.js:66-70 | the listing's clauses are the selected status's then the selected type's, and nothing else |
| DashboardAdmin.CargarResultado | app/components/admin/DashboardAdmin.js:70-74 | an array reply is the list and any other reply the empty list; a failure empties the list and shows its message or "Error al cargar reportes" |
| DashboardAdmin.EstadoKey | app/components/admin/DashboardAdmin.js:83 | a report's status string is its counting key; a report without `estado`, or a non-object, counts under "undefined" |
| DashboardAdmin.Estadisticas | app/components/admin/DashboardAdmin.js:80-87 | the total is the number of reports, and the count shown for each status is the number of reports with that status, present exactly when positive (statuses named after `Object.prototype` members are excepted; see "Left out") |
| DashboardAdmin.TotalStep | app/components/admin/DashboardAdmin.js:82-85 | adding one report raises the sum of counts over distinct keys by one exactly when its status is among them |
| DashboardAdmin.CountsSumToTotal | app/components/admin/DashboardAdmin.js:80-87 | the per-status counts over distinct keys that cover every status add up to the total |
| DashboardAdmin.FormTypesAreFilterable | app/components/FormularioReportes.js:81-88 | each type the form sends is, capitalised, one of the dashboard's type filters, and none is "Emergencia" |
| DashboardAdmin.Dashboard.ToggleEstado | app/components/admin/DashboardAdmin.js:262 | the status filter toggles and nothing else changes |
| DashboardAdmin.Dashboard.ToggleTipo | app/components/admin/DashboardAdmin.js:287 | the type filter toggles and nothing else changes |
| DashboardAdmin.Dashboard.Limpiar | app/components/admin/DashboardAdmin.js:201-204 | both filters become none and nothing else changes |
| DashboardAdmin.Dashboard.CargarReportes | app/components/admin/DashboardAdmin.js:62-78 | fetches the listing URL for the selected filters, sets list and error per `CargarResultado`, and loading ends false |
| HistorialReportes.MonthIndex | app/components/HistorialReportes.js:42-48 | entry `i` has index `11 - i` for `i < 12`, `23 - i` for `12 <= i < 24`, and is in 0..11 exactly when `i < 24` |
| HistorialReportes.MonthStart | app/components/HistorialReportes.js:52-53 | `new Date(year, month, 1)`: a month in 0..11 naming the same absolute month as `year * 12 + month` |
| HistorialReportes.MonthStartInRange | app/components/HistorialReportes.js:52 | a month index already in 0..11 names that month of the same year |
| HistorialReportes.NextMonth | app/components/HistorialReportes.js:53 | the month after, December rolling into January of the next year |
| HistorialReportes.BuildMesesRecientes | app/components/HistorialReportes.js:35-63 | the loop returns exactly `cantidad` entries (none for a negative count), entry `k` at position `k` |
| HistorialReportes.YearText | app/components/HistorialReportes.js:36-50 | the fixed year reads "2026" |
| HistorialReportes.TwoDigits | app/components/HistorialReportes.js:56 | for an index in range the month number is two decimal digits |
| HistorialReportes.Key | app/components/HistorialReportes.js:56 | a month index in range gives the key "2026-" followed by the two digits of the month number |
| HistorialReportes.Label | app/components/HistorialReportes.js:57 | a month index in range is labelled with its Spanish name and " 2026", any other index reads "undefined 2026" |
| HistorialReportes.FirstYearKey | app/components/HistorialReportes.js:42-56 | entry `i < 12` has index `11 - i` and key "2026-" plus the two-digit month number |
| HistorialReportes.FirstYearLabel | app/components/HistorialReportes.js:57 | entry `i < 12` is labelled with the Spanish month name and " 2026" |
| HistorialReportes.RangeIsOneMonth | app/components/HistorialReportes.js:52-53 | an entry in range covers exactly its month of 2026, up to the first day of the next month |
| HistorialReportes.DigitPairsDiffer | app/components/HistorialReportes.js:56 | different month numbers give different two-digit texts |
| HistorialReportes.KeysDistinct | app/components/HistorialReportes.js:42-56 | two of the first twelve entries never share a key |
| HistorialReportes.BuiltKeysDistinct | app/components/HistorialReportes.js:41-61 | a list of at most twelve entries, entry `k` at position `k` (as the loop builds it), has pairwise distinct keys |
| HistorialReportes.SecondYearRepeats | app/components/HistorialReportes.js:42-48 | entry `i + 12` equals entry `i`, so longer lists repeat keys |
| HistorialReportes.BeyondTwoYears | app/components/HistorialReportes.js:42-57 | from entry 24 on the index is negative and the label reads "undefined 2026" |
| HistorialReportes.BeyondTwoYearsRange | app/components/HistorialReportes.js:52 | from entry 24 on the range starts before 2026 |
| HistorialReportes.Entry24 | app/components/HistorialReportes.js:52-56 | entry 24 has key "2026-00" and covers December 2025 |
| HistorialReportes.FirstEntry | app/components/HistorialReportes.js:42-57 | entry 0 is "2026-12", "Diciembre 2026", from December 2026 up to January 2027 |
| HistorialReportes.SeleccionInicial | app/components/HistorialReportes.js:86-87 | the screen lists twelve entries and selects the first: key "2026-12", "Diciembre 2026", from December 2026 up to January 2027 |

## Left out

- HTTP itself is not modelled: request headers, the API key, and the body-reading promises (`arrayBuffer`, `text`). Each reply is an input value, and a reply whose body cannot be read is a transport failure.
- A 2xx reply whose body is not JSON makes `response.json()` reject: the GET helpers model that as a rejection with the parse error (`ReadJson`).
- Device APIs are parameters: location permission and position, the image picker, `Alert`, the result modal's rendering and navigation. The form's `obtenerUbicacionActual` and its fallback coordinates are not modelled.
- `Date.now()`, `Math.random().toString(36).substring(7)` and `encodeURIComponent` are parameters.
- `toISOString`, `toLocaleString` and `formatFecha` are not modelled. Month ranges are (year, month) pairs.
- `toFixed` and floating-point coordinates are not modelled. A non-integral number converts to text as a placeholder.
- NaN is not modelled.
- Upper-casing covers ASCII letters only.
- A TypeError's message wording is the engine's. The model uses one fixed text.
- `Promise.all` runs the uploads concurrently. The model treats them as a sequence of calls, each settling as a given outcome; when several promises reject, which rejection `All` reports is not modelled by time (the service's caught uploads never reject, so this never matters there).
- `FormContext` exists in the source but the form screen does not use it. The two are modelled separately.
- The unresolved merge-conflict markers in app/components/HistorialReportes.js are not modelled.
- In app/components/admin/DashboardAdmin.js, the effect at line 53 lists `cargarReportes` as a dependency before its `const` declaration at line 62. As written, the dashboard therefore throws a ReferenceError on its first render. The model describes the dashboard as if the declaration came first.
- The history screen's loading effect and its logout confirmation are not modelled.
- Console logging is not modelled.
- DashboardAdmin.Estadisticas: requires that no report is `null` or `undefined`. The source would throw a TypeError there.
- DashboardAdmin.Estadisticas: the per-status counts are stated for every key as if `acc` had no inherited keys. The source counts into `{}` (app/components/admin/DashboardAdmin.js:82-85), so a status named after an `Object.prototype` member behaves differently there. For `"toString"`, `acc[r.estado] || 0` reads the inherited function and the count becomes a string. For `"__proto__"`, the assignment goes to the prototype setter and no key is stored. The three statuses the screen shows ("Pendiente", "En Proceso", "Resuelto", read at app/components/admin/DashboardAdmin.js:171-183) are not such names.
- Nested JSON: a JSON object's fields are scalars only (`Val` in `Common`). A field holding a nested object or array is not modelled, so neither is the text `"[object Object]"` the source produces when it uses such a field as a message or key. That text would appear with `error.message` in lib/supabase-helpers.js (lines 27, 68, 96, 126, 155, 199, 222 and 350), with `errorData.message` and `errorData.hint` (lines 266-269 and 318-321), and with `r.estado` in app/components/admin/DashboardAdmin.js:83.
- SupabaseHelpers.ObtenerReportesPorRangoUrl and SupabaseHelpers.ObtenerReportesUrl are plain definitions. Their relation to the admin listing is stated by `RangeFiltersAgree` and `SinFiltrosIsObtenerReportes`.

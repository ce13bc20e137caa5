/** The report service: one shared instance that creates a report and then uploads its
    attachments, where a failed attachment never fails the report. */
module ReportServices {
  import opened Common
  import opened SupabaseHelpers

  /** A file chosen for upload: `type` is the picker's kind (`"image"` or `"video"`),
      `fileName` is absent when the caller gave none. */
  datatype Archivo = Archivo(uri: string, kind: Val, fileName: Option<string>)

  /** The arguments of one `subirArchivo(uri, reporteId, tipoArchivo, nombreArchivo)` call. */
  datatype UploadCall = UploadCall(uri: string, reporteId: Val, tipoArchivo: string, nombreArchivo: string)

  /** `archivo.type === "image" ? "imagen" : "video"`. */
  function TipoArchivo(kind: Val): (t: string)
    ensures t == "imagen" <==> kind == Str("image")
    ensures t == "imagen" || t == "video"
  {
    if kind == Str("image") then "imagen" else "video"
  }

  /** `reporte.id`: reading a field of null or undefined is a TypeError; any other
      non-object has no `id`. */
  function ReporteId(reporte: Json): (r: Outcome<Val>)
    ensures r.Fail? <==> reporte.JNull? || reporte.JUndefined?
    ensures reporte.JObject? ==> r == Ok(Get(reporte.row, "id"))
    ensures r.Fail? ==> r.failure.Runtime?
  {
    match reporte
    case JObject(row) => Ok(Get(row, "id"))
    case JNull => Fail(Runtime(TypeErrorMessage("id", "null")))
    case JUndefined => Fail(Runtime(TypeErrorMessage("id", "undefined")))
    case _ => Ok(Undefined)
  }

  /** The error `nombreArchivo.split` raises when the file has no name. */
  const MISSING_NAME := Runtime(TypeErrorMessage("split", "undefined"))

  /** The index of the first file without a name, or the number of files. */
  function FirstUnnamed(archivos: seq<Archivo>): (n: nat)
    ensures n <= |archivos|
    ensures forall k :: 0 <= k < n ==> archivos[k].fileName.Some?
    ensures n < |archivos| ==> archivos[n].fileName.None?
    decreases |archivos|
  {
    if archivos == [] then 0
    else if archivos[0].fileName.None? then 0
    else 1 + FirstUnnamed(archivos[1..])
  }

  /** The `subirArchivo` call made for one named file of report `id`. */
  function CallFor(id: Val, a: Archivo): (c: UploadCall)
    requires a.fileName.Some?
    ensures c.reporteId == id && c.uri == a.uri && c.nombreArchivo == a.fileName.value
    ensures c.tipoArchivo == "imagen" <==> a.kind == Str("image")
  {
    UploadCall(a.uri, id, TipoArchivo(a.kind), a.fileName.value)
  }

  /** The first unnamed file is at `i` when every file before `i` is named and `i` is not. */
  lemma UnnamedAt(archivos: seq<Archivo>, i: nat)
    requires i <= |archivos|
    requires forall k :: 0 <= k < i ==> archivos[k].fileName.Some?
    requires i < |archivos| ==> archivos[i].fileName.None?
    ensures FirstUnnamed(archivos) == i
  {
  }

  /** The calls `CallFor(id, f)` for each of the first `n` files, in order. */
  function CallsUpTo(id: Val, files: seq<Archivo>, n: nat): (r: seq<UploadCall>)
    requires n <= |files|
    requires forall k :: 0 <= k < n ==> files[k].fileName.Some?
    ensures |r| == n
    ensures forall k :: 0 <= k < n ==> r[k] == CallFor(id, files[k])
    decreases n
  {
    if n == 0 then [] else CallsUpTo(id, files, n - 1) + [CallFor(id, files[n - 1])]
  }

  /** Whether `crearReporteCompleto` gets as far as the uploads: the report was created and
      there are files. */
  predicate Fans(archivos: Option<seq<Archivo>>, created: Response)
  {
    CrearReporte(created).Ok? && archivos.Some? && archivos.value != []
  }

  /** The uploads `crearReporteCompleto` starts: one per file, up to the first file without a
      name, all for the created report's id. */
  function CompletoCalls(archivos: Option<seq<Archivo>>, created: Response): seq<UploadCall>
  {
    if !Fans(archivos, created) then []
    else match ReporteId(CrearReporte(created).value)
      case Fail(_) => []
      case Ok(id) => CallsUpTo(id, archivos.value, FirstUnnamed(archivos.value))
  }

  /** One upload with `.then(resultado => resultado).catch(() => null)` attached: it never
      rejects, and it fulfils with the upload's result or with `null` (`None`). */
  function Caught(o: Outcome<UploadResult>): (r: Outcome<Option<UploadResult>>)
    ensures r.Ok?
    ensures r.value.Some? <==> o.Ok?
    ensures o.Ok? ==> r.value.value == o.value
  {
    match o
    case Ok(v) => Ok(Some(v))
    case Fail(_) => Ok(None)
  }

  /** `Promise.all(ps)`: the values in order when every promise fulfils; otherwise a rejection
      of one of them (here the first in list order: which one settles first in time is not
      modelled). */
  function All<T>(ps: seq<Outcome<T>>): (r: Outcome<seq<T>>)
    ensures r.Ok? <==> forall k :: 0 <= k < |ps| ==> ps[k].Ok?
    ensures r.Ok? ==> |r.value| == |ps| && forall k :: 0 <= k < |ps| ==> r.value[k] == ps[k].value
    ensures r.Fail? ==> exists k :: 0 <= k < |ps| && ps[k] == Fail(r.failure)
    decreases |ps|
  {
    if ps == [] then Ok([])
    else
      var rest := All(ps[1..]);
      assert forall k :: 1 <= k < |ps| ==> ps[k] == ps[1..][k - 1];
      match ps[0]
      case Fail(f) => Fail(f)
      case Ok(v) => if rest.Fail? then Fail(rest.failure) else Ok([v] + rest.value)
  }

  /** The caught promises of the first `n` uploads, the k-th upload settling as `settle(k)`. */
  function Subidas(n: nat, settle: nat -> Outcome<UploadResult>): (r: seq<Outcome<Option<UploadResult>>>)
    ensures |r| == n
    ensures forall k :: 0 <= k < n ==> r[k] == Caught(settle(k))
    decreases n
  {
    if n == 0 then [] else Subidas(n - 1, settle) + [Caught(settle(n - 1))]
  }

  /** The caught uploads never make `Promise.all` reject: it fulfils with each upload's result,
      or `null` where the upload failed. */
  lemma {:induction false} CaughtNeverRejects(n: nat, settle: nat -> Outcome<UploadResult>)
    ensures All(Subidas(n, settle)).Ok?
    ensures forall k :: 0 <= k < n ==>
      All(Subidas(n, settle)).value[k] == (if settle(k).Ok? then Some(settle(k).value) else None)
  {
    var ps := Subidas(n, settle);
    forall k | 0 <= k < |ps|
      ensures ps[k].Ok? && ps[k].value == (if settle(k).Ok? then Some(settle(k).value) else None)
    {
      assert ps[k] == Caught(settle(k));
    }
  }

  /** How `crearReporteCompleto` settles when the k-th upload it starts settles as
      `settle(k)`. */
  function CompletoResult(archivos: Option<seq<Archivo>>, created: Response,
                          settle: nat -> Outcome<UploadResult>): Outcome<Json>
  {
    if !Fans(archivos, created) then CrearReporte(created)
    else match ReporteId(CrearReporte(created).value)
      case Fail(f) => Fail(f)
      case Ok(_) =>
        var n := FirstUnnamed(archivos.value);
        if n < |archivos.value| then Fail(MISSING_NAME)
        else match All(Subidas(n, settle))
          case Fail(f) => Fail(f)
          case Ok(_) => CrearReporte(created)
  }

  /** A failed creation is the result, and no upload is attempted. */
  lemma CreateFailureStops(archivos: Option<seq<Archivo>>, created: Response, settle: nat -> Outcome<UploadResult>)
    requires CrearReporte(created).Fail?
    ensures CompletoResult(archivos, created, settle) == CrearReporte(created)
    ensures CompletoCalls(archivos, created) == []
  {
  }

  /** Without files the result is the created report, and no upload is attempted. */
  lemma NoFilesNoUploads(created: Response, settle: nat -> Outcome<UploadResult>)
    ensures CompletoResult(None, created, settle) == CrearReporte(created) && CompletoCalls(None, created) == []
    ensures CompletoResult(Some([]), created, settle) == CrearReporte(created) && CompletoCalls(Some([]), created) == []
  {
  }

  /** Once the report exists and its `id` can be read, every named file gets exactly one
      upload, all for that same id, and the result is the created report however each upload
      settles. */
  lemma UploadsIsolated(files: seq<Archivo>, created: Response, settle: nat -> Outcome<UploadResult>)
    requires CrearReporte(created).Ok? && ReporteId(CrearReporte(created).value).Ok?
    requires forall k :: 0 <= k < |files| ==> files[k].fileName.Some?
    ensures CompletoResult(Some(files), created, settle) == CrearReporte(created)
    ensures |CompletoCalls(Some(files), created)| == |files|
    ensures forall k :: 0 <= k < |files| ==>
      CompletoCalls(Some(files), created)[k].reporteId == ReporteId(CrearReporte(created).value).value &&
      CompletoCalls(Some(files), created)[k] == CallFor(ReporteId(CrearReporte(created).value).value, files[k])
  {
    if files != [] {
      UnnamedAt(files, |files|);
      CaughtNeverRejects(|files|, settle);
    }
  }

  /** The whole operation fails exactly when the creation fails, or when there are files and
      the created report is null or undefined or one of the files has no name; how the
      uploads settle never matters. */
  lemma CompletoFailsOnlyThere(archivos: Option<seq<Archivo>>, created: Response, settle: nat -> Outcome<UploadResult>)
    ensures CompletoResult(archivos, created, settle).Fail? <==>
      CrearReporte(created).Fail? ||
      (Fans(archivos, created) &&
       (ReporteId(CrearReporte(created).value).Fail? || FirstUnnamed(archivos.value) < |archivos.value|))
  {
    if Fans(archivos, created) && ReporteId(CrearReporte(created).value).Ok? {
      CaughtNeverRejects(FirstUnnamed(archivos.value), settle);
    }
  }

  /** `archivos.map(archivo => subirArchivo(...).then(...).catch(...))` for report `id`: one
      call per file, in order, until a file without a name throws in its callback; `promesas`
      are the caught promises of the calls made. */
  method IniciarSubidas(id: Val, files: seq<Archivo>, settle: nat -> Outcome<UploadResult>)
    returns (thrown: bool, calls: seq<UploadCall>, promesas: seq<Outcome<Option<UploadResult>>>)
    ensures thrown <==> FirstUnnamed(files) < |files|
    ensures calls == CallsUpTo(id, files, FirstUnnamed(files))
    ensures promesas == Subidas(|calls|, settle)
  {
    calls, promesas := [], [];
    thrown := false;
    var i := 0;
    while i < |files| && !thrown
      invariant 0 <= i <= |files|
      invariant forall k :: 0 <= k < i ==> files[k].fileName.Some?
      invariant thrown ==> i < |files| && files[i].fileName.None?
      invariant calls == CallsUpTo(id, files, i)
      invariant promesas == Subidas(i, settle)
      decreases |files| - i, !thrown
    {
      if files[i].fileName.None? {
        thrown := true;
      } else {
        calls := calls + [CallFor(id, files[i])];
        promesas := promesas + [Caught(settle(i))];
        i := i + 1;
      }
    }
    UnnamedAt(files, i);
  }

  class ReportService {
    constructor ()
    {
    }

    /** `crearReporteRapido`: create the report, nothing else. */
    function CrearReporteRapido(created: Response): (r: Outcome<Json>)
      ensures r == CrearReporte(created)
      ensures r.Ok? <==> Accepted(created)
      ensures r.Ok? ==> r.value == FirstOrSelf(created.body.doc)
      ensures r.Fail? && r.failure.Thrown? ==> r.failure.message != ""
    {
      CrearReporte(created)
    }

    /** `crearReporteCompleto`: create the report from the reply `created`, then, when there are
        files, start one upload per file (`calls`, in order), the k-th settling as `settle(k)`
        (how one upload settles is `SubirArchivo`). Each upload's rejection is caught and
        turned into `null` (`subidas`, one entry per call made), so `Promise.all` of them
        never rejects and the report is the result however the uploads end. The calls are
        made inside the continuation: a created report that is null or undefined, or a file
        without a name, throws there, and that rejects the whole call. */
    method CrearReporteCompleto(archivos: Option<seq<Archivo>>, created: Response, settle: nat -> Outcome<UploadResult>)
      returns (result: Outcome<Json>, calls: seq<UploadCall>, subidas: seq<Option<UploadResult>>)
      ensures result == CompletoResult(archivos, created, settle)
      ensures calls == CompletoCalls(archivos, created)
      ensures |subidas| == |calls|
      ensures forall k :: 0 <= k < |calls| ==> subidas[k] == (if settle(k).Ok? then Some(settle(k).value) else None)
    {
      var reporte := CrearReporte(created);
      calls, subidas := [], [];
      result := reporte;
      if reporte.Ok? && archivos.Some? && archivos.value != [] {
        var id := ReporteId(reporte.value);
        if id.Fail? {
          result := Fail(id.failure);
        } else {
          var thrown, promesas;
          thrown, calls, promesas := IniciarSubidas(id.value, archivos.value, settle);
          subidas := seq(|promesas|, k requires 0 <= k < |promesas| && promesas[k].Ok? => promesas[k].value);
          result := if thrown then Fail(MISSING_NAME)
                    else match All(promesas)
                      case Fail(f) => Fail(f)
                      case Ok(_) => reporte;
        }
      }
    }

    /** The service's own `obtenerReportes` reads its reply exactly as the gateway helper of
        the same name does. */
    function ObtenerReportes(response: Response): (r: Outcome<Json>)
      ensures r == SupabaseHelpers.ObtenerReportes(response)
    {
      ReadJson(response, "Error al obtener reportes")
    }
  }

  /** Holder of the shared instance (`ReportService.instance`). */
  class ServiceRegistry {
    var instance: ReportService?

    constructor ()
      ensures instance == null
    {
      instance := null;
    }

    /** `getInstance`: create the instance on first use, return the same one ever after. */
    method GetInstance() returns (s: ReportService)
      modifies this
      ensures instance == s
      ensures old(instance) != null ==> s == old(instance)
      ensures old(instance) == null ==> fresh(s)
    {
      if instance == null {
        instance := new ReportService();
      }
      s := instance;
    }
  }
}

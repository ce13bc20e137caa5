/** The gateway to the hosted REST and storage service: the requests each helper issues
    (method, URL, body) and how it turns the service's reply into a result or an error.
    Replies are inputs: the service itself is not modelled. */
module SupabaseHelpers {
  import opened Common

  /** The body of a reply, as the code reads it: parsed JSON, or text that `JSON.parse`
      (or `response.json()`) rejects with `parseError`. */
  datatype Body = Parsed(doc: Json) | Unparsed(text: string, parseError: string)

  /** What `fetch` settles to: a reply, or a rejection by the transport. */
  datatype Response = Response(ok: bool, status: int, body: Body) | NetworkFailure(message: string)

  datatype RequestBody = NoBody | JsonBody(row: Row) | Binary(size: nat)

  datatype Request = Request(verb: string, url: string, contentType: string, body: RequestBody)

  const REPORTES := "/rest/v1/reportes"
  const ADJUNTOS := "/rest/v1/archivos_adjuntos"
  const OBJECT_PATH := "/storage/v1/object/archivos-reportes/"
  const PUBLIC_PATH := "/storage/v1/object/public/archivos-reportes/"
  const JSON_TYPE := "application/json"
  const TS := "timestamp_creado"

  // ---------------------------------------------------------------------------------------
  // Response shaping shared by the helpers

  /** The error thrown for a non-2xx reply whose JSON body is `doc`: `error.message || fallback`
      (reading a field of `null` is a TypeError). */
  function ErrorFromDoc(doc: Json, fallback: string): (f: Failure)
    ensures doc.JObject? && Truthy(Get(doc.row, "message")) ==> f == Thrown(ValText(Get(doc.row, "message")))
    ensures doc.JObject? && !Truthy(Get(doc.row, "message")) ==> f == Thrown(fallback)
    ensures f.Runtime? <==> doc.JNull? || doc.JUndefined?
  {
    match doc
    case JObject(row) => Thrown(if Truthy(Get(row, "message")) then ValText(Get(row, "message")) else fallback)
    case JNull => Runtime(TypeErrorMessage("message", "null"))
    case JUndefined => Runtime(TypeErrorMessage("message", "undefined"))
    case _ => Thrown(fallback)
  }

  /** A 2xx reply with a JSON body. */
  predicate Accepted(response: Response)
  {
    response.Response? && response.ok && response.body.Parsed?
  }

  /** A non-2xx reply with a JSON body: the helpers throw the body's `message`. */
  predicate Rejected(response: Response)
  {
    response.Response? && !response.ok && response.body.Parsed?
  }

  /** `response.ok ? response.json() : response.json().then(error => throw ...)`, the pattern
      of every helper except the two PATCH helpers. */
  function ReadJson(response: Response, fallback: string): (r: Outcome<Json>)
    requires fallback != ""
    ensures r.Ok? <==> Accepted(response)
    ensures r.Ok? ==> r.value == response.body.doc
    ensures Rejected(response) ==> r == Fail(ErrorFromDoc(response.body.doc, fallback))
    ensures response.NetworkFailure? ==> r == Fail(Runtime(response.message))
    ensures response.Response? && response.body.Unparsed? ==> r == Fail(Runtime(response.body.parseError))
    ensures r.Fail? && r.failure.Thrown? ==> r.failure.message != ""
  {
    match response
    case NetworkFailure(m) => Fail(Runtime(m))
    case Response(ok, _, body) =>
      match body
      case Unparsed(_, parseError) => Fail(Runtime(parseError))
      case Parsed(doc) => if ok then Ok(doc) else Fail(ErrorFromDoc(doc, fallback))
  }

  /** `Array.isArray(x) ? x[0] : x`. */
  function FirstOrSelf(doc: Json): (r: Json)
    ensures !doc.JArray? ==> r == doc
    ensures doc.JArray? && |doc.items| > 0 ==> r == doc.items[0]
    ensures doc.JArray? && doc.items == [] ==> r == JUndefined
  {
    match doc
    case JArray(items) => if |items| > 0 then items[0] else JUndefined
    case _ => doc
  }

  /** A one-row array and the bare row normalise to the same value. */
  lemma SingletonNormalisesLikeRow(row: Row)
    ensures FirstOrSelf(JArray([JObject(row)])) == FirstOrSelf(JObject(row)) == JObject(row)
  {
  }

  /** `Array.isArray(x) && x.length > 0 ? x[0] : null`, the normalisation of `obtenerReportePorId`. */
  function FirstOrNull(doc: Json): (r: Json)
    ensures doc.JArray? && |doc.items| > 0 ==> r == doc.items[0]
    ensures !(doc.JArray? && |doc.items| > 0) ==> r == JNull
  {
    if doc.JArray? && |doc.items| > 0 then doc.items[0] else JNull
  }

  /** The two normalisations agree on non-empty arrays; on a bare object `obtenerReportePorId`
      answers null where the others pass the object through. */
  lemma NormalisationsCompared(doc: Json)
    ensures doc.JArray? && |doc.items| > 0 ==> FirstOrNull(doc) == FirstOrSelf(doc)
    ensures doc.JObject? ==> FirstOrNull(doc) == JNull && FirstOrSelf(doc) == doc
    ensures doc == JArray([]) ==> FirstOrNull(doc) == JNull && FirstOrSelf(doc) == JUndefined
  {
  }

  // ---------------------------------------------------------------------------------------
  // crearReporte

  /** The six fields copied from the caller's data. */
  const CREAR_FIELDS := ["tipo_incidente", "latitud", "longitud", "direccion", "descripcion", "ubicacion_confirmada"]

  /** The POST body: the six fields copied, `estado` and `ciudad` forced. */
  function CrearReporteBody(data: Row): (body: Row)
    ensures body.Keys == {"tipo_incidente", "latitud", "longitud", "direccion", "descripcion", "ubicacion_confirmada", "estado", "ciudad"}
    ensures body["estado"] == Str("Pendiente") && body["ciudad"] == Str("Tarija")
    ensures forall k :: k in CREAR_FIELDS ==> body[k] == Get(data, k)
  {
    map[
      "tipo_incidente" := Get(data, "tipo_incidente"),
      "latitud" := Get(data, "latitud"),
      "longitud" := Get(data, "longitud"),
      "direccion" := Get(data, "direccion"),
      "descripcion" := Get(data, "descripcion"),
      "ubicacion_confirmada" := Get(data, "ubicacion_confirmada"),
      "estado" := Str("Pendiente"),
      "ciudad" := Str("Tarija")
    ]
  }

  /** The body depends on the six copied fields only: any `estado`, `ciudad` or other field the
      caller passes is dropped. */
  lemma CrearBodyIgnoresOtherFields(d1: Row, d2: Row)
    requires forall k :: k in CREAR_FIELDS ==> Get(d1, k) == Get(d2, k)
    ensures CrearReporteBody(d1) == CrearReporteBody(d2)
  {
    assert "tipo_incidente" in CREAR_FIELDS && "latitud" in CREAR_FIELDS && "longitud" in CREAR_FIELDS;
    assert "direccion" in CREAR_FIELDS && "descripcion" in CREAR_FIELDS && "ubicacion_confirmada" in CREAR_FIELDS;
  }

  /** The POST to the reports table carrying the fixed-up body. */
  function CrearReporteRequest(base: string, data: Row): (r: Request)
    ensures r.verb == "POST" && r.url == base + REPORTES && r.contentType == JSON_TYPE
    ensures r.body == JsonBody(CrearReporteBody(data))
    ensures r.body.row["estado"] == Str("Pendiente") && r.body.row["ciudad"] == Str("Tarija")
  {
    Request("POST", base + REPORTES, JSON_TYPE, JsonBody(CrearReporteBody(data)))
  }

  /** The created report: the reply normalised to its first element. */
  function CrearReporte(response: Response): (r: Outcome<Json>)
    ensures r.Ok? <==> Accepted(response)
    ensures r.Ok? ==> r.value == FirstOrSelf(response.body.doc)
    ensures r.Fail? ==> r == Fail(ReadJson(response, "Error al crear reporte").failure)
    ensures Rejected(response) ==> r == Fail(ErrorFromDoc(response.body.doc, "Error al crear reporte"))
    ensures r.Fail? && r.failure.Thrown? ==> r.failure.message != ""
  {
    match ReadJson(response, "Error al crear reporte")
    case Ok(doc) => Ok(FirstOrSelf(doc))
    case Fail(f) => Fail(f)
  }

  // ---------------------------------------------------------------------------------------
  // subirArchivo

  /** `name.split(".").pop()`: the text after the last '.', or the whole name when it has none. */
  function LastSegment(name: string): (r: string)
    ensures '.' !in r
    ensures |r| <= |name| && r == name[|name| - |r|..]
    ensures |r| < |name| ==> name[|name| - |r| - 1] == '.'
  {
    if name == [] then []
    else if name[|name| - 1] == '.' then []
    else LastSegment(name[..|name| - 1]) + [name[|name| - 1]]
  }

  /** The segment after a final '.' is exactly what follows it. */
  lemma {:induction false} LastSegmentAfterDot(prefix: string, ext: string)
    requires '.' !in ext
    ensures LastSegment(prefix + "." + ext) == ext
    decreases |ext|
  {
    var s := prefix + "." + ext;
    if ext == [] {
      assert s[|s| - 1] == '.';
    } else {
      var e' := ext[..|ext| - 1];
      assert s[..|s| - 1] == prefix + "." + e';
      assert s[|s| - 1] == ext[|ext| - 1];
      LastSegmentAfterDot(prefix, e');
      assert e' + [ext[|ext| - 1]] == ext;
    }
  }

  /** `name.split(".").pop() || (tipo === "video" ? "mp4" : "jpg")`. */
  function FileExt(name: string, tipo: string): (ext: string)
    ensures '.' !in ext && ext != ""
    ensures LastSegment(name) != "" ==> ext == LastSegment(name)
    ensures LastSegment(name) == "" ==> ext == (if tipo == "video" then "mp4" else "jpg")
  {
    var last := LastSegment(name);
    if last != "" then last else DefaultExt(tipo)
  }

  /** The extension used when the name gives none. */
  function DefaultExt(tipo: string): (ext: string)
    ensures ext == (if tipo == "video" then "mp4" else "jpg")
    ensures '.' !in ext && ext != ""
  {
    var ext := if tipo == "video" then "mp4" else "jpg";
    assert |ext| == 3 && ext[0] != '.' && ext[1] != '.' && ext[2] != '.';
    ext
  }

  /** `${reporteId}/${timestamp}-${token}.${ext}`; `token` stands for the random base-36 suffix. */
  function StoragePath(reporteId: Val, timestamp: nat, token: string, ext: string): string
  {
    ValText(reporteId) + "/" + NatToString(timestamp) + "-" + token + "." + ext
  }

  /** The storage path sits under the report's id and carries the derived extension. */
  lemma {:induction false} StoragePathShape(reporteId: Val, timestamp: nat, token: string, name: string, tipo: string)
    ensures var path := StoragePath(reporteId, timestamp, token, FileExt(name, tipo));
      ValText(reporteId) + "/" <= path && LastSegment(path) == FileExt(name, tipo)
  {
    var ext := FileExt(name, tipo);
    var dir := ValText(reporteId) + "/";
    var prefix := dir + NatToString(timestamp) + "-" + token;
    var path := StoragePath(reporteId, timestamp, token, ext);
    assert path == prefix + "." + ext;
    assert LastSegment(path) == ext by {
      LastSegmentAfterDot(prefix, ext);
    }
    assert dir <= path by {
      PrefixOfAppend(dir, NatToString(timestamp) + "-" + token + "." + ext);
    }
  }

  lemma PrefixOfAppend(a: string, b: string)
    ensures a <= a + b
  {
  }

  function ContentType(tipo: string): (ct: string)
    ensures ct == "video/mp4" <==> tipo == "video"
    ensures ct == "image/jpeg" <==> tipo != "video"
  {
    if tipo == "video" then "video/mp4" else "image/jpeg"
  }

  /** The object's URL in the bucket: the path can be read back after the bucket prefix. */
  function UploadUrl(base: string, path: string): (r: string)
    ensures base + OBJECT_PATH <= r && r[|base + OBJECT_PATH|..] == path
  {
    base + OBJECT_PATH + path
  }

  /** The object's public URL: the same path after the bucket's public prefix. */
  function PublicUrl(base: string, path: string): (r: string)
    ensures base + PUBLIC_PATH <= r && r[|base + PUBLIC_PATH|..] == path
  {
    base + PUBLIC_PATH + path
  }

  /** The metadata row inserted after the upload. */
  function AdjuntoRow(reporteId: Val, tipo: string, publicUrl: string, size: nat, name: string): (r: Row)
    ensures r.Keys == {"reporte_id", "tipo_archivo", "url_archivo", "tamano_bytes", "nombre_original"}
    ensures r["reporte_id"] == reporteId && r["tipo_archivo"] == Str(tipo) && r["url_archivo"] == Str(publicUrl)
    ensures r["tamano_bytes"] == Num(size) && r["nombre_original"] == Str(name)
  {
    map[
      "reporte_id" := reporteId,
      "tipo_archivo" := Str(tipo),
      "url_archivo" := Str(publicUrl),
      "tamano_bytes" := Num(size),
      "nombre_original" := Str(name)
    ]
  }

  datatype UploadResult = UploadResult(publicUrl: string, archivoAdjunto: Json)

  /** The requests one call issued to the service, in order, and how it settled. */
  datatype UploadRun = UploadRun(requests: seq<Request>, result: Outcome<UploadResult>)

  /** The part of one `subirArchivo` call after the file was read (`size` bytes), for the
      object path `path`: the binary upload, then, when its reply is ok, the metadata insert. */
  function UploadAndRecord(base: string, path: string, reporteId: Val, tipo: string, name: string, size: nat,
                           upload: Response, insert: Response): (run: UploadRun)
    ensures 1 <= |run.requests| <= 2
    ensures run.requests[0] == Request("POST", UploadUrl(base, path), ContentType(tipo), Binary(size))
    ensures |run.requests| == 2 <==> upload.Response? && upload.ok
    ensures |run.requests| == 2 ==>
      run.requests[1] == Request("POST", base + ADJUNTOS, JSON_TYPE,
                                 JsonBody(AdjuntoRow(reporteId, tipo, PublicUrl(base, path), size, name)))
    ensures run.result.Ok? <==> upload.Response? && upload.ok && Accepted(insert)
    ensures run.result.Ok? ==> run.result.value == UploadResult(PublicUrl(base, path), FirstOrSelf(insert.body.doc))
    ensures upload.NetworkFailure? ==> run.result == Fail(Runtime(upload.message))
    ensures upload.Response? && !upload.ok ==>
      run.result == Fail(if upload.body.Parsed? then ErrorFromDoc(upload.body.doc, "Error al subir archivo")
                         else Runtime(upload.body.parseError))
    ensures upload.Response? && upload.ok && run.result.Fail? ==>
      run.result == Fail(ReadJson(insert, "Error al guardar referencia").failure)
    ensures upload.Response? && upload.ok && Rejected(insert) ==>
      run.result == Fail(ErrorFromDoc(insert.body.doc, "Error al guardar referencia"))
    ensures run.result.Fail? && run.result.failure.Thrown? ==> run.result.failure.message != ""
  {
    var put := Request("POST", UploadUrl(base, path), ContentType(tipo), Binary(size));
    match upload
    case NetworkFailure(m) => UploadRun([put], Fail(Runtime(m)))
    case Response(ok, _, body) =>
      if !ok then
        UploadRun([put], Fail(match body
                              case Parsed(doc) => ErrorFromDoc(doc, "Error al subir archivo")
                              case Unparsed(_, parseError) => Runtime(parseError)))
      else
        var publicUrl := PublicUrl(base, path);
        var record := Request("POST", base + ADJUNTOS, JSON_TYPE, JsonBody(AdjuntoRow(reporteId, tipo, publicUrl, size, name)));
        match ReadJson(insert, "Error al guardar referencia")
        case Ok(doc) => UploadRun([put, record], Ok(UploadResult(publicUrl, FirstOrSelf(doc))))
        case Fail(f) => UploadRun([put, record], Fail(f))
  }

  /** One `subirArchivo` call. `payload` is reading the local file: its byte length, or the
      rejection; `timestamp` and `token` stand for `Date.now()` and the random suffix;
      `upload` and `insert` are the replies to the binary upload and the metadata insert. */
  function SubirArchivo(base: string, reporteId: Val, tipo: string, name: string, timestamp: nat, token: string,
                        payload: Outcome<nat>, upload: Response, insert: Response): (run: UploadRun)
    ensures |run.requests| <= 2
    ensures payload.Fail? ==> run == UploadRun([], Fail(payload.failure))
    ensures payload.Ok? ==> |run.requests| >= 1
    ensures var path := StoragePath(reporteId, timestamp, token, FileExt(name, tipo));
      payload.Ok? ==> run.requests[0] == Request("POST", UploadUrl(base, path), ContentType(tipo), Binary(payload.value))
    ensures |run.requests| == 2 <==> payload.Ok? && upload.Response? && upload.ok
    ensures var path := StoragePath(reporteId, timestamp, token, FileExt(name, tipo));
      |run.requests| == 2 ==>
        run.requests[1] == Request("POST", base + ADJUNTOS, JSON_TYPE,
                                   JsonBody(AdjuntoRow(reporteId, tipo, PublicUrl(base, path), payload.value, name)))
    ensures run.result.Ok? <==> payload.Ok? && upload.Response? && upload.ok && Accepted(insert)
    ensures var path := StoragePath(reporteId, timestamp, token, FileExt(name, tipo));
      run.result.Ok? ==> run.result.value == UploadResult(PublicUrl(base, path), FirstOrSelf(insert.body.doc))
    ensures payload.Ok? && upload.NetworkFailure? ==> run.result == Fail(Runtime(upload.message))
    ensures payload.Ok? && upload.Response? && !upload.ok ==>
      run.result == Fail(if upload.body.Parsed? then ErrorFromDoc(upload.body.doc, "Error al subir archivo")
                         else Runtime(upload.body.parseError))
    ensures payload.Ok? && upload.Response? && upload.ok && run.result.Fail? ==>
      run.result == Fail(ReadJson(insert, "Error al guardar referencia").failure)
    ensures payload.Ok? && upload.Response? && upload.ok && Rejected(insert) ==>
      run.result == Fail(ErrorFromDoc(insert.body.doc, "Error al guardar referencia"))
    ensures payload.Ok? && run.result.Fail? && run.result.failure.Thrown? ==> run.result.failure.message != ""
  {
    match payload
    case Fail(f) => UploadRun([], Fail(f))
    case Ok(size) =>
      UploadAndRecord(base, StoragePath(reporteId, timestamp, token, FileExt(name, tipo)), reporteId, tipo, name, size,
                      upload, insert)
  }

  /** After the read: a request to the attachments table is only ever the second one, made
      after an ok upload, and it records that upload's object and size. */
  lemma RecordFollowsUpload(base: string, path: string, reporteId: Val, tipo: string, name: string, size: nat,
                            upload: Response, insert: Response)
    ensures var run := UploadAndRecord(base, path, reporteId, tipo, name, size, upload, insert);
      forall i :: 0 <= i < |run.requests| && run.requests[i].url == base + ADJUNTOS ==>
        i == 1 && upload.Response? && upload.ok
        && run.requests[i].body == JsonBody(AdjuntoRow(reporteId, tipo, PublicUrl(base, path), size, name))
  {
    UploadUrlIsNotTable(base, path);
  }

  /** Upload then record: a metadata row is never inserted unless the binary upload succeeded,
      and it points at the object the upload stored and records the uploaded size. */
  lemma UploadBeforeRecord(base: string, reporteId: Val, tipo: string, name: string, timestamp: nat, token: string,
                           payload: Outcome<nat>, upload: Response, insert: Response)
    ensures var run := SubirArchivo(base, reporteId, tipo, name, timestamp, token, payload, upload, insert);
      var path := StoragePath(reporteId, timestamp, token, FileExt(name, tipo));
      forall i :: 0 <= i < |run.requests| && run.requests[i].url == base + ADJUNTOS ==>
        i == 1 && upload.Response? && upload.ok
        && run.requests[0] == Request("POST", UploadUrl(base, path), ContentType(tipo), Binary(payload.value))
        && run.requests[i].body == JsonBody(AdjuntoRow(reporteId, tipo, PublicUrl(base, path), payload.value, name))
  {
    if payload.Ok? {
      var path := StoragePath(reporteId, timestamp, token, FileExt(name, tipo));
      RecordFollowsUpload(base, path, reporteId, tipo, name, payload.value, upload, insert);
    }
  }

  /** The storage upload URL and the attachments table URL differ, whatever the object path. */
  lemma UploadUrlIsNotTable(base: string, path: string)
    ensures UploadUrl(base, path) != base + ADJUNTOS
  {
    var k := |base| + 1;
    assert UploadUrl(base, path)[k] == OBJECT_PATH[1];
    assert (base + ADJUNTOS)[k] == ADJUNTOS[1];
  }

  // ---------------------------------------------------------------------------------------
  // Listing queries

  /** One clause of a query string. Values of `Eq`, `Gte` and `Lt` go through
      `encodeURIComponent`; the limit does not. */
  datatype Clause = Eq(field: string, value: string) | Gte(field: string, value: string) | Lt(field: string, value: string)
                  | Limit(count: string) | OrderDesc(field: string)

  function Render(c: Clause, enc: string -> string): string
  {
    match c
    case Eq(f, v) => f + "=eq." + enc(v)
    case Gte(f, v) => f + "=gte." + enc(v)
    case Lt(f, v) => f + "=lt." + enc(v)
    case Limit(n) => "limit=" + n
    case OrderDesc(f) => "order=" + f + ".desc"
  }

  /** `&c1&c2...` */
  function Tail(cs: seq<Clause>, enc: string -> string): string
    decreases |cs|
  {
    if cs == [] then "" else "&" + Render(cs[0], enc) + Tail(cs[1..], enc)
  }

  /** `?c1&c2...` */
  function Query(cs: seq<Clause>, enc: string -> string): string
  {
    if cs == [] then "" else "?" + Render(cs[0], enc) + Tail(cs[1..], enc)
  }

  lemma {:induction false} TailAppend(cs: seq<Clause>, c: Clause, enc: string -> string)
    ensures Tail(cs + [c], enc) == Tail(cs, enc) + "&" + Render(c, enc)
    decreases |cs|
  {
    if cs == [] {
      assert Tail([c], enc) == "&" + Render(c, enc) + Tail([], enc);
    } else {
      assert (cs + [c])[1..] == cs[1..] + [c];
      TailAppend(cs[1..], c, enc);
    }
  }

  /** The filter argument of `obtenerTodosReportes`; an absent key is `Undefined`. */
  datatype Filtros = Filtros(estado: Val, tipo_incidente: Val, desde: Val, hasta: Val, limit: Val)

  const SIN_FILTROS := Filtros(Undefined, Undefined, Undefined, Undefined, Undefined)

  /** The clause kinds in the fixed order the code appends them. */
  function Rank(c: Clause): nat
  {
    match c
    case OrderDesc(_) => 0
    case Eq(f, _) => if f == "estado" then 1 else 2
    case Gte(_, _) => 3
    case Lt(_, _) => 4
    case Limit(_) => 5
  }

  /** `acc` followed by `c` when the filter value is truthy: one `if (...) url += ...`. */
  function Step(acc: seq<Clause>, present: bool, c: Clause): (r: seq<Clause>)
    ensures forall x :: x in r <==> x in acc || (present && x == c)
  {
    if present then acc + [c] else acc
  }

  function EstadoClause(f: Filtros): Clause { Eq("estado", ValText(f.estado)) }
  function TipoClause(f: Filtros): Clause { Eq("tipo_incidente", ValText(f.tipo_incidente)) }
  function DesdeClause(f: Filtros): Clause { Gte(TS, ValText(f.desde)) }
  function HastaClause(f: Filtros): Clause { Lt(TS, ValText(f.hasta)) }
  function LimitClause(f: Filtros): Clause { Limit(ValText(f.limit)) }

  /** The filter clauses, in the order the code appends them. */
  function FilterClauses(f: Filtros): seq<Clause>
  {
    var s1 := Step([], Truthy(f.estado), EstadoClause(f));
    var s2 := Step(s1, Truthy(f.tipo_incidente), TipoClause(f));
    var s3 := Step(s2, Truthy(f.desde), DesdeClause(f));
    var s4 := Step(s3, Truthy(f.hasta), HastaClause(f));
    Step(s4, Truthy(f.limit), LimitClause(f))
  }

  predicate Ascending(cs: seq<Clause>)
  {
    forall i, j :: 0 <= i < j < |cs| ==> Rank(cs[i]) < Rank(cs[j])
  }

  /** Appending a clause of higher rank than every clause so far keeps the ranks ascending. */
  lemma StepAscending(acc: seq<Clause>, present: bool, c: Clause)
    requires Ascending(acc)
    requires forall x :: x in acc ==> Rank(x) < Rank(c)
    ensures Ascending(Step(acc, present, c))
    ensures forall x :: x in Step(acc, present, c) ==> Rank(x) <= Rank(c)
  {
    if present {
      var r := acc + [c];
      forall i, j | 0 <= i < j < |r| ensures Rank(r[i]) < Rank(r[j]) {
        assert r[i] in acc;
        if j < |acc| {
          assert r[j] == acc[j];
        }
      }
    }
  }

  /** Each filter clause is present exactly when its value is truthy. */
  lemma FilterClausesPresence(f: Filtros)
    ensures EstadoClause(f) in FilterClauses(f) <==> Truthy(f.estado)
    ensures TipoClause(f) in FilterClauses(f) <==> Truthy(f.tipo_incidente)
    ensures DesdeClause(f) in FilterClauses(f) <==> Truthy(f.desde)
    ensures HastaClause(f) in FilterClauses(f) <==> Truthy(f.hasta)
    ensures LimitClause(f) in FilterClauses(f) <==> Truthy(f.limit)
  {
    assert "tipo_incidente" != "estado" by {
      assert |"tipo_incidente"| != |"estado"|;
    }
  }

  /** The clauses follow the fixed order estado, tipo_incidente, desde (gte), hasta (lt),
      limit, behind the leading `order` clause; so none repeats. */
  lemma FilterClausesOrdered(f: Filtros)
    ensures Ascending([OrderDesc(TS)] + FilterClauses(f))
  {
    var s1 := Step([], Truthy(f.estado), EstadoClause(f));
    var s2 := Step(s1, Truthy(f.tipo_incidente), TipoClause(f));
    var s3 := Step(s2, Truthy(f.desde), DesdeClause(f));
    var s4 := Step(s3, Truthy(f.hasta), HastaClause(f));
    var s5 := Step(s4, Truthy(f.limit), LimitClause(f));
    assert Rank(TipoClause(f)) == 2 by {
      assert |"tipo_incidente"| != |"estado"|;
    }
    StepAscending([], Truthy(f.estado), EstadoClause(f));
    StepAscending(s1, Truthy(f.tipo_incidente), TipoClause(f));
    StepAscending(s2, Truthy(f.desde), DesdeClause(f));
    StepAscending(s3, Truthy(f.hasta), HastaClause(f));
    StepAscending(s4, Truthy(f.limit), LimitClause(f));
    ConsAscending(OrderDesc(TS), s5);
  }

  lemma ConsAscending(c: Clause, cs: seq<Clause>)
    requires Ascending(cs)
    requires forall x :: x in cs ==> Rank(c) < Rank(x)
    ensures Ascending([c] + cs)
  {
    var r := [c] + cs;
    forall i, j | 0 <= i < j < |r| ensures Rank(r[i]) < Rank(r[j]) {
      assert r[j] == cs[j - 1];
      if i > 0 {
        assert r[i] == cs[i - 1];
      }
    }
  }

  /** One `if (...) url += "&" + clause` keeps the URL equal to the prefix followed by the
      clauses appended so far. */
  lemma StepUrl(prefix: string, url: string, added: seq<Clause>, present: bool, c: Clause, enc: string -> string)
    requires url == prefix + Tail(added, enc)
    ensures (if present then url + "&" + Render(c, enc) else url) == prefix + Tail(Step(added, present, c), enc)
  {
    if present {
      TailAppend(added, c, enc);
    }
  }

  lemma OrderedQuery(path: string, cs: seq<Clause>, enc: string -> string)
    ensures path + "?" + Render(OrderDesc(TS), enc) + Tail(cs, enc) == path + Query([OrderDesc(TS)] + cs, enc)
  {
    assert ([OrderDesc(TS)] + cs)[1..] == cs;
  }

  /** The URL `obtenerTodosReportes` fetches, built as the code does by appending to `url`. */
  method ObtenerTodosUrl(base: string, filtros: Filtros, enc: string -> string) returns (url: string)
    ensures url == base + REPORTES + Query([OrderDesc(TS)] + FilterClauses(filtros), enc)
  {
    url := base + REPORTES + "?" + Render(OrderDesc(TS), enc);
    ghost var prefix := url;
    ghost var added: seq<Clause> := [];
    StepUrl(prefix, url, added, Truthy(filtros.estado), EstadoClause(filtros), enc);
    if Truthy(filtros.estado) {
      url := url + "&" + Render(EstadoClause(filtros), enc);
    }
    added := Step(added, Truthy(filtros.estado), EstadoClause(filtros));
    StepUrl(prefix, url, added, Truthy(filtros.tipo_incidente), TipoClause(filtros), enc);
    if Truthy(filtros.tipo_incidente) {
      url := url + "&" + Render(TipoClause(filtros), enc);
    }
    added := Step(added, Truthy(filtros.tipo_incidente), TipoClause(filtros));
    StepUrl(prefix, url, added, Truthy(filtros.desde), DesdeClause(filtros), enc);
    if Truthy(filtros.desde) {
      url := url + "&" + Render(DesdeClause(filtros), enc);
    }
    added := Step(added, Truthy(filtros.desde), DesdeClause(filtros));
    StepUrl(prefix, url, added, Truthy(filtros.hasta), HastaClause(filtros), enc);
    if Truthy(filtros.hasta) {
      url := url + "&" + Render(HastaClause(filtros), enc);
    }
    added := Step(added, Truthy(filtros.hasta), HastaClause(filtros));
    StepUrl(prefix, url, added, Truthy(filtros.limit), LimitClause(filtros), enc);
    if Truthy(filtros.limit) {
      url := url + "&" + Render(LimitClause(filtros), enc);
    }
    added := Step(added, Truthy(filtros.limit), LimitClause(filtros));
    OrderedQuery(base + REPORTES, added, enc);
  }

  function ObtenerTodosReportes(response: Response): (r: Outcome<Json>)
    ensures r.Ok? <==> Accepted(response)
    ensures r.Ok? ==> r.value == response.body.doc
    ensures Rejected(response) ==> r == Fail(ErrorFromDoc(response.body.doc, "Error al obtener reportes"))
  {
    ReadJson(response, "Error al obtener reportes")
  }

  /** `obtenerReportes`: every report, newest first. */
  function ObtenerReportesUrl(base: string, enc: string -> string): string
  {
    base + REPORTES + Query([OrderDesc(TS)], enc)
  }

  /** With no filters the admin listing fetches exactly what `obtenerReportes` fetches. */
  lemma SinFiltrosIsObtenerReportes(base: string, enc: string -> string)
    ensures FilterClauses(SIN_FILTROS) == []
    ensures base + REPORTES + Query([OrderDesc(TS)] + FilterClauses(SIN_FILTROS), enc) == ObtenerReportesUrl(base, enc)
  {
    assert [OrderDesc(TS)] + [] == [OrderDesc(TS)];
  }

  /** The clauses of `obtenerReportesPorRango`: half-open on the creation time, newest first. */
  function RangoClauses(desdeISO: string, hastaISO: string): seq<Clause>
  {
    [Gte(TS, desdeISO), Lt(TS, hastaISO), OrderDesc(TS)]
  }

  /** `?timestamp_creado=gte.<desde>&timestamp_creado=lt.<hasta>&order=timestamp_creado.desc` */
  function ObtenerReportesPorRangoUrl(base: string, desdeISO: string, hastaISO: string, enc: string -> string): string
  {
    base + REPORTES + Query(RangoClauses(desdeISO, hastaISO), enc)
  }

  /** The admin listing restricted to a date range selects with the same half-open pair of
      clauses as the range query: `gte` on the start, `lt` on the end. */
  lemma RangeFiltersAgree(desdeISO: string, hastaISO: string)
    requires desdeISO != "" && hastaISO != ""
    ensures FilterClauses(Filtros(Undefined, Undefined, Str(desdeISO), Str(hastaISO), Undefined))
            == RangoClauses(desdeISO, hastaISO)[..2]
  {
  }

  function ObtenerReportesPorRango(response: Response): (r: Outcome<Json>)
    ensures r.Ok? <==> Accepted(response)
    ensures r.Ok? ==> r.value == response.body.doc
    ensures Rejected(response) ==> r == Fail(ErrorFromDoc(response.body.doc, "Error al obtener reportes"))
  {
    ReadJson(response, "Error al obtener reportes")
  }

  function ObtenerReportes(response: Response): (r: Outcome<Json>)
    ensures r.Ok? <==> Accepted(response)
    ensures r.Ok? ==> r.value == response.body.doc
    ensures Rejected(response) ==> r == Fail(ErrorFromDoc(response.body.doc, "Error al obtener reportes"))
  {
    ReadJson(response, "Error al obtener reportes")
  }

  function PorIdUrl(base: string, id: Val): (r: string)
    ensures base + REPORTES + "?id=eq." <= r && r[|base + REPORTES + "?id=eq."|..] == ValText(id)
  {
    base + REPORTES + "?id=eq." + ValText(id)
  }

  /** `obtenerReportePorId`: the first row, or null when the reply is not a non-empty array;
      a missing row is not an error. */
  function ObtenerReportePorId(response: Response): (r: Outcome<Json>)
    ensures r.Ok? <==> response.Response? && response.ok && response.body.Parsed?
    ensures r.Ok? && response.body.doc == JArray([]) ==> r.value == JNull
    ensures r.Ok? ==> r.value == FirstOrNull(response.body.doc)
    ensures Rejected(response) ==> r == Fail(ErrorFromDoc(response.body.doc, "Error al obtener reporte"))
    ensures r.Fail? ==> r == Fail(ReadJson(response, "Error al obtener reporte").failure)
  {
    match ReadJson(response, "Error al obtener reporte")
    case Ok(doc) => Ok(FirstOrNull(doc))
    case Fail(f) => Fail(f)
  }

  // ---------------------------------------------------------------------------------------
  // PATCH helpers

  const ESTADO_SUFFIX := ": No se pudo actualizar el estado. Verifica las políticas RLS en Supabase."
  const NOTAS_SUFFIX := ": No se pudieron guardar las notas. Verifica las políticas RLS en Supabase."

  /** `adminNombre || null` */
  function AdminOrNull(adminNombre: Val): (v: Val)
    ensures Truthy(adminNombre) ==> v == adminNombre
    ensures !Truthy(adminNombre) ==> v == Null
  {
    if Truthy(adminNombre) then adminNombre else Null
  }

  /** The error thrown on a non-2xx PATCH reply: the body parsed as JSON, or
      `{message: text || "Error desconocido"}` when it is not JSON; then its `message`, else its
      `hint`, else a message naming the status. */
  function PatchFailure(status: int, body: Body, suffix: string): (f: Failure)
    ensures body.Unparsed? ==> f == Thrown(if body.text != "" then body.text else "Error desconocido")
    ensures body.Parsed? && body.doc.JObject? && Truthy(Get(body.doc.row, "message")) ==>
      f == Thrown(ValText(Get(body.doc.row, "message")))
    ensures body.Parsed? && body.doc.JObject? && !Truthy(Get(body.doc.row, "message")) && Truthy(Get(body.doc.row, "hint")) ==>
      f == Thrown(ValText(Get(body.doc.row, "hint")))
    ensures body.Parsed? && body.doc.JObject? && !Truthy(Get(body.doc.row, "message")) && !Truthy(Get(body.doc.row, "hint")) ==>
      f == Thrown("Error " + IntToString(status) + suffix)
    ensures f.Runtime? <==> body.Parsed? && (body.doc.JNull? || body.doc.JUndefined?)
    ensures f.Thrown? ==> f.message != ""
  {
    var errorData := match body
      case Parsed(doc) => doc
      case Unparsed(text, _) => JObject(map["message" := Str(if text != "" then text else "Error desconocido")]);
    match errorData
    case JNull => Runtime(TypeErrorMessage("message", "null"))
    case JUndefined => Runtime(TypeErrorMessage("message", "undefined"))
    case JObject(row) =>
      Thrown(if Truthy(Get(row, "message")) then ValText(Get(row, "message"))
             else if Truthy(Get(row, "hint")) then ValText(Get(row, "hint"))
             else "Error " + IntToString(status) + suffix)
    case _ => Thrown("Error " + IntToString(status) + suffix)
  }

  /** The result of a PATCH helper: the failure above, or the reply normalised to its first
      element, or `fallback` when the 2xx body is not JSON. */
  function PatchOutcome(response: Response, suffix: string, fallback: Json): (r: Outcome<Json>)
    ensures r.Ok? <==> response.Response? && response.ok
    ensures r.Ok? && response.body.Unparsed? ==> r.value == fallback
    ensures r.Ok? && response.body.Parsed? ==> r.value == FirstOrSelf(response.body.doc)
    ensures r.Fail? && response.Response? ==> r.failure == PatchFailure(response.status, response.body, suffix)
  {
    match response
    case NetworkFailure(m) => Fail(Runtime(m))
    case Response(ok, status, body) =>
      if !ok then Fail(PatchFailure(status, body, suffix))
      else match body
        case Parsed(doc) => Ok(FirstOrSelf(doc))
        case Unparsed(_, _) => Ok(fallback)
  }

  function ActualizarEstadoRequest(base: string, id: Val, nuevoEstado: Val, adminNombre: Val): (req: Request)
    ensures req.body.JsonBody? && req.body.row.Keys == {"estado", "admin_asignado"}
    ensures req.body.row["estado"] == nuevoEstado && req.body.row["admin_asignado"] == AdminOrNull(adminNombre)
  {
    Request("PATCH", PorIdUrl(base, id), JSON_TYPE, JsonBody(map["estado" := nuevoEstado, "admin_asignado" := AdminOrNull(adminNombre)]))
  }

  /** `actualizarEstadoReporte`; the fallback echoes `adminNombre` as given, without `|| null`. */
  function ActualizarEstadoReporte(id: Val, nuevoEstado: Val, adminNombre: Val, response: Response): (r: Outcome<Json>)
    ensures r.Ok? <==> response.Response? && response.ok
    ensures r.Ok? && response.body.Parsed? ==> r.value == FirstOrSelf(response.body.doc)
    ensures r.Ok? && response.body.Unparsed? ==>
      r.value == JObject(map["id" := id, "estado" := nuevoEstado, "admin_asignado" := adminNombre])
    ensures r.Fail? && response.Response? ==> r.failure == PatchFailure(response.status, response.body, ESTADO_SUFFIX)
  {
    PatchOutcome(response, ESTADO_SUFFIX, JObject(map["id" := id, "estado" := nuevoEstado, "admin_asignado" := adminNombre]))
  }

  function AgregarNotasRequest(base: string, id: Val, notas: Val, adminNombre: Val): (req: Request)
    ensures req.body.JsonBody? && req.body.row.Keys == {"notas_admin", "admin_asignado"}
    ensures req.body.row["notas_admin"] == notas && req.body.row["admin_asignado"] == AdminOrNull(adminNombre)
  {
    Request("PATCH", PorIdUrl(base, id), JSON_TYPE, JsonBody(map["notas_admin" := notas, "admin_asignado" := AdminOrNull(adminNombre)]))
  }

  function AgregarNotasAdmin(id: Val, notas: Val, adminNombre: Val, response: Response): (r: Outcome<Json>)
    ensures r.Ok? <==> response.Response? && response.ok
    ensures r.Ok? && response.body.Parsed? ==> r.value == FirstOrSelf(response.body.doc)
    ensures r.Ok? && response.body.Unparsed? ==>
      r.value == JObject(map["id" := id, "notas_admin" := notas, "admin_asignado" := adminNombre])
    ensures r.Fail? && response.Response? ==> r.failure == PatchFailure(response.status, response.body, NOTAS_SUFFIX)
  {
    PatchOutcome(response, NOTAS_SUFFIX, JObject(map["id" := id, "notas_admin" := notas, "admin_asignado" := adminNombre]))
  }

  /** The request sends `admin_asignado: null` for an empty admin name while the synthesised
      fallback result echoes the empty name itself. */
  lemma FallbackEchoesRawAdmin(base: string, id: Val, estado: Val, parseError: string)
    ensures ActualizarEstadoRequest(base, id, estado, Str("")).body.row["admin_asignado"] == Null
    ensures ActualizarEstadoReporte(id, estado, Str(""), Response(true, 200, Unparsed("", parseError)))
            == Ok(JObject(map["id" := id, "estado" := estado, "admin_asignado" := Str("")]))
  {
  }

  function ObtenerArchivosPorReporteUrl(base: string, reporteId: Val): (r: string)
    ensures base + ADJUNTOS + "?reporte_id=eq." <= r && r[|base + ADJUNTOS + "?reporte_id=eq."|..] == ValText(reporteId)
  {
    base + ADJUNTOS + "?reporte_id=eq." + ValText(reporteId)
  }

  function ObtenerArchivosPorReporte(response: Response): (r: Outcome<Json>)
    ensures r.Ok? <==> Accepted(response)
    ensures r.Ok? ==> r.value == response.body.doc
    ensures Rejected(response) ==> r == Fail(ErrorFromDoc(response.body.doc, "Error al obtener archivos"))
  {
    ReadJson(response, "Error al obtener archivos")
  }
}

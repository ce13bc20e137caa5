/** The citizen's report form: the incident type, the confirmed location, the attachments
    picked from the gallery (at most three images and one video) and the send action that hands
    everything to the report service. */
module FormularioReportes {
  import opened Common
  import opened SupabaseHelpers
  import opened ReportServices

  /** The ids of the three incident types offered by the form, in display order. */
  const TIPOS_INCIDENTE := ["urgente", "importante", "informativo"]

  const MAX_IMAGENES := 3
  const MAX_VIDEOS := 1

  const ALERTA_PERMISOS := "Necesitamos acceso a tu galería para seleccionar imágenes."
  const ALERTA_IMAGENES := "Solo puedes subir máximo 3 imágenes"
  const ALERTA_VIDEOS := "Solo puedes subir máximo 1 video"
  const ALERTA_SELECCION := "No se pudieron seleccionar los archivos"

  const TITULO_EXITO := "Reporte Registrado"
  const MENSAJE_EXITO := "Tu reporte ha sido enviado exitosamente. Las autoridades tomarán acción lo más pronto posible.\n\nGracias por contribuir a la seguridad de Tarija."
  const TITULO_ERROR := "Error al Enviar"
  const MENSAJE_ERROR := "No se pudo enviar tu reporte. Por favor, verifica tu conexión a internet e inténtalo de nuevo."

  /** The modal's type, title and message after a send that succeeded (`ok`) or failed. */
  function Modal(ok: bool): (string, string, string)
  {
    if ok then ("exito", TITULO_EXITO, MENSAJE_EXITO) else ("error", TITULO_ERROR, MENSAJE_ERROR)
  }

  // ---------------------------------------------------------------------------------------
  // Attachments

  /** An asset returned by the gallery picker: `kind` is its `type`, `fileName` may be missing. */
  datatype Asset = Asset(uri: string, kind: Val, fileName: Option<string>, fileSize: Val)

  /** An entry of `archivosSeleccionados`: `kind` is always `"image"` or `"video"`. */
  datatype Seleccionado = Seleccionado(uri: string, kind: string, fileName: string, size: Val)

  /** What the gallery interaction ended with. */
  datatype PickerResult = PermisoDenegado | Cancelado | Elegidos(assets: seq<Asset>) | FalloSelector

  /** `list.filter(a => a.type === k).length` */
  function CountSel(list: seq<Seleccionado>, k: string): nat
    decreases |list|
  {
    if list == [] then 0 else (if list[0].kind == k then 1 else 0) + CountSel(list[1..], k)
  }

  /** `assets.filter(a => a.type === k).length` */
  function CountAssets(assets: seq<Asset>, k: string): nat
    decreases |assets|
  {
    if assets == [] then 0 else (if assets[0].kind == Str(k) then 1 else 0) + CountAssets(assets[1..], k)
  }

  /** At most three images and at most one video. */
  predicate WithinCaps(list: seq<Seleccionado>)
  {
    CountSel(list, "image") <= MAX_IMAGENES && CountSel(list, "video") <= MAX_VIDEOS
  }

  /** One picked asset as stored: `type` collapsed to `"video"` or `"image"`, a missing name
      replaced by `file-<now>.<mp4|jpg>`. */
  function AsSeleccionado(a: Asset, now: nat): (s: Seleccionado)
    ensures s.kind == "video" <==> a.kind == Str("video")
    ensures s.kind == "video" || s.kind == "image"
    ensures s.uri == a.uri && s.size == a.fileSize
    ensures Present(a.fileName) ==> s.fileName == a.fileName.value
    ensures s.fileName != ""
  {
    var ext := if a.kind == Str("video") then "mp4" else "jpg";
    Seleccionado(a.uri, if a.kind == Str("video") then "video" else "image", OrElse(a.fileName, "file-" + NatToString(now) + "." + ext), a.fileSize)
  }

  /** `assets.map(...)`, where the k-th callback reads the clock `clock(start + k)`. */
  function Mapped(assets: seq<Asset>, clock: nat -> nat, start: nat): (r: seq<Seleccionado>)
    ensures |r| == |assets|
  {
    seq(|assets|, k requires 0 <= k < |assets| => AsSeleccionado(assets[k], clock(start + k)))
  }

  /** The outcome of one pick: refused by the image cap (checked first), refused by the video
      cap, or accepted with the new list. */
  datatype Pick = LimiteImagenes | LimiteVideos | Aceptado(lista: seq<Seleccionado>)

  function PickOutcome(current: seq<Seleccionado>, assets: seq<Asset>, clock: nat -> nat): (r: Pick)
    ensures r == LimiteImagenes <==> CountSel(current, "image") + CountAssets(assets, "image") > MAX_IMAGENES
    ensures r == LimiteVideos <==>
      CountSel(current, "image") + CountAssets(assets, "image") <= MAX_IMAGENES &&
      CountSel(current, "video") + CountAssets(assets, "video") > MAX_VIDEOS
    ensures r.Aceptado? ==> |r.lista| == |current| + |assets| && r.lista[..|current|] == current
    ensures r.Aceptado? ==> forall i :: 0 <= i < |assets| ==> r.lista[|current| + i] == AsSeleccionado(assets[i], clock(i))
  {
    if CountSel(current, "image") + CountAssets(assets, "image") > MAX_IMAGENES then LimiteImagenes
    else if CountSel(current, "video") + CountAssets(assets, "video") > MAX_VIDEOS then LimiteVideos
    else Aceptado(current + Mapped(assets, clock, 0))
  }

  lemma {:induction false} CountSelAppend(a: seq<Seleccionado>, b: seq<Seleccionado>, k: string)
    ensures CountSel(a + b, k) == CountSel(a, k) + CountSel(b, k)
    decreases |a|
  {
    if a == [] {
      assert a + b == b;
    } else {
      assert (a + b)[0] == a[0];
      assert (a + b)[1..] == a[1..] + b;
      CountSelAppend(a[1..], b, k);
    }
  }

  /** Every asset whose type is `"image"` or `"video"`. */
  predicate Typed(assets: seq<Asset>)
  {
    forall i :: 0 <= i < |assets| ==> assets[i].kind == Str("image") || assets[i].kind == Str("video")
  }

  /** Entry `i` of `list` has the kind that mapping gives asset `i` of `assets`. */
  predicate KindsMatch(list: seq<Seleccionado>, assets: seq<Asset>)
  {
    |list| == |assets| &&
    forall i :: 0 <= i < |list| ==>
      (list[i].kind == "video" <==> assets[i].kind == Str("video")) && (list[i].kind == "video" || list[i].kind == "image")
  }

  /** A list whose kinds match the assets' has as many videos, and as many images when every
      asset is typed. */
  lemma {:induction false} CountByKinds(list: seq<Seleccionado>, assets: seq<Asset>)
    requires KindsMatch(list, assets)
    ensures CountSel(list, "video") == CountAssets(assets, "video")
    ensures Typed(assets) ==> CountSel(list, "image") == CountAssets(assets, "image")
    decreases |list|
  {
    if list != [] {
      assert KindsMatch(list[1..], assets[1..]) by {
        forall i | 0 <= i < |list[1..]|
          ensures (list[1..][i].kind == "video" <==> assets[1..][i].kind == Str("video"))
          ensures list[1..][i].kind == "video" || list[1..][i].kind == "image"
        {
          assert list[1..][i] == list[i + 1] && assets[1..][i] == assets[i + 1];
        }
      }
      assert Typed(assets) ==> Typed(assets[1..]) by {
        if Typed(assets) {
          forall i | 0 <= i < |assets[1..]|
            ensures assets[1..][i].kind == Str("image") || assets[1..][i].kind == Str("video")
          {
            assert assets[1..][i] == assets[i + 1];
          }
        }
      }
      CountByKinds(list[1..], assets[1..]);
    }
  }

  /** Mapping keeps the video count; it keeps the image count when every asset is typed. */
  lemma CountMapped(assets: seq<Asset>, clock: nat -> nat, start: nat)
    ensures CountSel(Mapped(assets, clock, start), "video") == CountAssets(assets, "video")
    ensures Typed(assets) ==> CountSel(Mapped(assets, clock, start), "image") == CountAssets(assets, "image")
  {
    var m := Mapped(assets, clock, start);
    assert KindsMatch(m, assets) by {
      forall i | 0 <= i < |m|
        ensures (m[i].kind == "video" <==> assets[i].kind == Str("video")) && (m[i].kind == "video" || m[i].kind == "image")
      {
        assert m[i] == AsSeleccionado(assets[i], clock(start + i));
      }
    }
    CountByKinds(m, assets);
  }

  /** An accepted pick of image and video assets never takes the list past the caps. */
  lemma PickKeepsCaps(current: seq<Seleccionado>, assets: seq<Asset>, clock: nat -> nat)
    requires Typed(assets)
    ensures PickOutcome(current, assets, clock).Aceptado? ==> WithinCaps(PickOutcome(current, assets, clock).lista)
  {
    if PickOutcome(current, assets, clock).Aceptado? {
      CountSelAppend(current, Mapped(assets, clock, 0), "image");
      CountSelAppend(current, Mapped(assets, clock, 0), "video");
      CountMapped(assets, clock, 0);
    }
  }

  /** The caps count only assets typed exactly `"image"`: an asset of another type passes both
      checks and is then stored as an image, so three images become four. */
  lemma OtherTypeSlipsPastImageCap(clock: nat -> nat)
    ensures var img := Seleccionado("a", "image", "a.jpg", Undefined);
      var other := Asset("b", Str("livePhoto"), None, Undefined);
      var p := PickOutcome([img, img, img], [other], clock);
      p.Aceptado? && CountSel(p.lista, "image") == 4
  {
    var img := Seleccionado("a", "image", "a.jpg", Undefined);
    var other := Asset("b", Str("livePhoto"), None, Undefined);
    assert Str("livePhoto") != Str("image") by {
      assert |"livePhoto"| != |"image"|;
    }
    assert Str("livePhoto") != Str("video") by {
      assert |"livePhoto"| != |"video"|;
    }
    assert CountAssets([other], "image") == 0;
    assert CountAssets([other], "video") == 0;
    var p := PickOutcome([img, img, img], [other], clock);
    CountSelAppend([img, img, img], Mapped([other], clock, 0), "image");
    assert Mapped([other], clock, 0)[0].kind == "image";
  }

  /** `list.filter((_, i) => i !== index)`, with `from` the position of `list[0]`. */
  function Without(list: seq<Seleccionado>, index: int, from: nat): seq<Seleccionado>
    decreases |list|
  {
    if list == [] then []
    else (if from == index then [] else [list[0]]) + Without(list[1..], index, from + 1)
  }

  function RemoveAt(list: seq<Seleccionado>, index: int): seq<Seleccionado>
  {
    Without(list, index, 0)
  }

  lemma {:induction false} WithoutSlices(list: seq<Seleccionado>, index: int, from: nat)
    ensures from <= index < from + |list| ==>
      Without(list, index, from) == list[..index - from] + list[index - from + 1..]
    ensures !(from <= index < from + |list|) ==> Without(list, index, from) == list
    decreases |list|
  {
    if list != [] {
      WithoutSlices(list[1..], index, from + 1);
      if from == index {
        assert list[1..] == list[index - from + 1..];
      } else if from < index < from + |list| {
        assert list[..index - from] == [list[0]] + list[1..][..index - from - 1];
        assert list[index - from + 1..] == list[1..][index - (from + 1) + 1..];
      } else {
        assert list == [list[0]] + list[1..];
      }
    }
  }

  /** Removing entry `index` deletes exactly that entry and keeps the others in order; an index
      outside the list removes nothing. */
  lemma RemoveAtSpec(list: seq<Seleccionado>, index: int)
    ensures 0 <= index < |list| ==> RemoveAt(list, index) == list[..index] + list[index + 1..]
    ensures 0 <= index < |list| ==> |RemoveAt(list, index)| == |list| - 1
    ensures !(0 <= index < |list|) ==> RemoveAt(list, index) == list
  {
    WithoutSlices(list, index, 0);
  }

  /** Removing an entry never takes the list past the caps. */
  lemma RemoveAtKeepsCaps(list: seq<Seleccionado>, index: int)
    requires WithinCaps(list)
    ensures WithinCaps(RemoveAt(list, index))
  {
    RemoveAtSpec(list, index);
    if 0 <= index < |list| {
      assert list == list[..index] + ([list[index]] + list[index + 1..]);
      CountSelAppend(list[..index], [list[index]] + list[index + 1..], "image");
      CountSelAppend(list[..index], [list[index]] + list[index + 1..], "video");
      CountSelAppend([list[index]], list[index + 1..], "image");
      CountSelAppend([list[index]], list[index + 1..], "video");
      CountSelAppend(list[..index], list[index + 1..], "image");
      CountSelAppend(list[..index], list[index + 1..], "video");
    }
  }

  // ---------------------------------------------------------------------------------------
  // The payload

  /** `c.toUpperCase()` on the ASCII letters (other scripts are not modelled). */
  function UpperChar(c: char): (u: char)
    ensures 'a' <= c <= 'z' ==> 'A' <= u <= 'Z' && u as int == c as int - 32
    ensures !('a' <= c <= 'z') ==> u == c
  {
    if 'a' <= c <= 'z' then (c as int - 32) as char else c
  }

  /** `s.charAt(0).toUpperCase() + s.slice(1)` */
  function Capitalize(s: string): (r: string)
    ensures |r| == |s|
    ensures s != "" ==> r[0] == UpperChar(s[0]) && r[1..] == s[1..]
  {
    if s == "" then "" else [UpperChar(s[0])] + s[1..]
  }

  /** The device location, `{}` until it is known. */
  datatype Ubicacion = Ubicacion(lat: Option<real>, lng: Option<real>)

  /** A coordinate as a request field: the number, or absent. */
  function Coord(c: Option<real>): Val
  {
    match c
    case Some(v) => Dec(v)
    case None => Undefined
  }

  /** `!ubicacion.lat || !ubicacion.lng` is false: both known and neither is 0. */
  predicate Usable(u: Ubicacion)
  {
    u.lat.Some? && u.lat.value != 0.0 && u.lng.Some? && u.lng.value != 0.0
  }

  /** The `data` handed to the service. */
  function EnviarData(tipoIncidente: string, u: Ubicacion): (data: Row)
    ensures data.Keys == {"tipo_incidente", "latitud", "longitud", "ubicacion_confirmada"}
    ensures data["tipo_incidente"] == Str(Capitalize(tipoIncidente))
    ensures data["ubicacion_confirmada"] == Bool(true)
    ensures data["latitud"] == Coord(u.lat) && data["longitud"] == Coord(u.lng)
  {
    map["tipo_incidente" := Str(Capitalize(tipoIncidente)), "latitud" := Coord(u.lat),
        "longitud" := Coord(u.lng), "ubicacion_confirmada" := Bool(true)]
  }

  /** The report body the gateway builds from the form's data: the capitalised type, the
      coordinates, the confirmation, and no address or description. */
  lemma SentBody(tipoIncidente: string, u: Ubicacion)
    ensures var body := CrearReporteBody(EnviarData(tipoIncidente, u));
      body["tipo_incidente"] == Str(Capitalize(tipoIncidente)) && body["ubicacion_confirmada"] == Bool(true) &&
      body["direccion"] == Undefined && body["descripcion"] == Undefined && body["estado"] == Str("Pendiente")
  {
    var data := EnviarData(tipoIncidente, u);
    assert "direccion" !in data.Keys && "descripcion" !in data.Keys;
    assert "tipo_incidente" in CREAR_FIELDS && "ubicacion_confirmada" in CREAR_FIELDS;
    assert "direccion" in CREAR_FIELDS && "descripcion" in CREAR_FIELDS;
  }

  /** One stored entry as handed to the service: a missing name becomes `archivo.<jpg|mp4>`. */
  function ParaServicio(s: Seleccionado): (a: Archivo)
    ensures a.uri == s.uri && a.kind == Str(s.kind) && a.fileName.Some?
    ensures s.fileName != "" ==> a.fileName.value == s.fileName
    ensures s.fileName == "" ==> a.fileName.value == (if s.kind == "image" then "archivo.jpg" else "archivo.mp4")
  {
    Archivo(s.uri, Str(s.kind), Some(OrElse(Some(s.fileName), "archivo." + (if s.kind == "image" then "jpg" else "mp4"))))
  }

  function ParaServicioTodos(list: seq<Seleccionado>): (r: seq<Archivo>)
    ensures |r| == |list|
    ensures forall i :: 0 <= i < |list| ==> r[i] == ParaServicio(list[i])
    ensures FirstUnnamed(r) == |r|
    decreases |list|
  {
    if list == [] then [] else [ParaServicio(list[0])] + ParaServicioTodos(list[1..])
  }

  /** A send from the form succeeds exactly when the report is created and, if files are
      attached, the created report is neither null nor undefined (so its `id` can be read);
      every attached file is then uploaded once, in order, for that id (the form always
      supplies a name), and how the uploads settle never matters. */
  lemma EnviarOutcome(archivos: seq<Seleccionado>, created: Response, settle: nat -> Outcome<UploadResult>)
    ensures var files := ParaServicioTodos(archivos);
      CompletoResult(Some(files), created, settle).Ok? <==>
        CrearReporte(created).Ok? && (archivos == [] || ReporteId(CrearReporte(created).value).Ok?)
    ensures var files := ParaServicioTodos(archivos);
      CompletoResult(Some(files), created, settle).Ok? ==>
        CompletoResult(Some(files), created, settle) == CrearReporte(created) &&
        |CompletoCalls(Some(files), created)| == |archivos| &&
        forall k :: 0 <= k < |archivos| ==>
          CompletoCalls(Some(files), created)[k] == CallFor(ReporteId(CrearReporte(created).value).value, ParaServicio(archivos[k]))
  {
    var files := ParaServicioTodos(archivos);
    CompletoFailsOnlyThere(Some(files), created, settle);
    if CompletoResult(Some(files), created, settle).Ok? && archivos != [] {
      UploadsIsolated(files, created, settle);
    }
  }

  /** What `handleSubirArchivos` does with the picker's answer `picker`: the new list of
      selected files and the alert shown, if any. `clock(k)` is `Date.now()` in the k-th map
      callback. */
  function Seleccion(current: seq<Seleccionado>, picker: PickerResult, clock: nat -> nat): (r: (seq<Seleccionado>, Option<string>))
    ensures picker.Elegidos? && PickOutcome(current, picker.assets, clock).Aceptado? ==>
      r == (PickOutcome(current, picker.assets, clock).lista, None)
    ensures !(picker.Elegidos? && PickOutcome(current, picker.assets, clock).Aceptado?) ==> r.0 == current
    ensures picker.PermisoDenegado? ==> r.1 == Some(ALERTA_PERMISOS)
    ensures picker.Cancelado? ==> r.1 == None
    ensures picker.FalloSelector? ==> r.1 == Some(ALERTA_SELECCION)
    ensures picker.Elegidos? && PickOutcome(current, picker.assets, clock).LimiteImagenes? ==> r.1 == Some(ALERTA_IMAGENES)
    ensures picker.Elegidos? && PickOutcome(current, picker.assets, clock).LimiteVideos? ==> r.1 == Some(ALERTA_VIDEOS)
    ensures WithinCaps(current) && (picker.Elegidos? ==> Typed(picker.assets)) ==> WithinCaps(r.0)
  {
    match picker
    case PermisoDenegado => (current, Some(ALERTA_PERMISOS))
    case Cancelado => (current, None)
    case FalloSelector => (current, Some(ALERTA_SELECCION))
    case Elegidos(assets) =>
      match PickOutcome(current, assets, clock)
      case LimiteImagenes => (current, Some(ALERTA_IMAGENES))
      case LimiteVideos => (current, Some(ALERTA_VIDEOS))
      case Aceptado(lista) =>
        assert Typed(assets) ==> WithinCaps(lista) by {
          if Typed(assets) {
            PickKeepsCaps(current, assets, clock);
          }
        }
        (lista, None)
  }

  /** What one send handed to the service and how the service answered: the data, the
      outcome, and the uploads started. */
  datatype Envio = Envio(data: Row, result: Outcome<Json>, calls: seq<UploadCall>)

  // ---------------------------------------------------------------------------------------
  // The component state

  /** Every state variable of the component at one moment. */
  datatype FormView = FormView(
    tipoIncidente: string, ubicacionConfirmada: bool, loading: bool, ubicacion: Ubicacion,
    modalVisible: bool, modalTipo: string, modalTitulo: string, modalMensaje: string,
    archivos: seq<Seleccionado>, subiendoArchivos: bool)

  class ReportForm {
    var tipoIncidente: string
    var ubicacionConfirmada: bool
    var loading: bool
    var ubicacion: Ubicacion
    var modalVisible: bool
    var modalTipo: string
    var modalTitulo: string
    var modalMensaje: string
    var archivos: seq<Seleccionado>
    var subiendoArchivos: bool

    constructor ()
      ensures tipoIncidente == "urgente" && !ubicacionConfirmada && !loading
      ensures ubicacion == Ubicacion(None, None) && archivos == [] && !subiendoArchivos
      ensures !modalVisible && modalTipo == "exito" && modalTitulo == "" && modalMensaje == ""
    {
      tipoIncidente := "urgente";
      ubicacionConfirmada := false;
      loading := false;
      ubicacion := Ubicacion(None, None);
      modalVisible := false;
      modalTipo := "exito";
      modalTitulo := "";
      modalMensaje := "";
      archivos := [];
      subiendoArchivos := false;
    }

    /** The state as one value, so that a handler can say what it leaves unchanged. */
    function View(): FormView
      reads this
    {
      FormView(tipoIncidente, ubicacionConfirmada, loading, ubicacion, modalVisible, modalTipo,
               modalTitulo, modalMensaje, archivos, subiendoArchivos)
    }

    /** A tap on one of the incident types. */
    method SeleccionarTipo(id: string)
      modifies this
      ensures View() == old(View()).(tipoIncidente := id)
    {
      tipoIncidente := id;
    }

    /** `setUbicacion({lat, lng})` once the position is known. */
    method UbicacionObtenida(lat: real, lng: real)
      modifies this
      ensures View() == old(View()).(ubicacion := Ubicacion(Some(lat), Some(lng)))
    {
      ubicacion := Ubicacion(Some(lat), Some(lng));
    }

    /** `handleConfirmarUbicacion`: confirms only a location with both coordinates truthy
        (a coordinate of 0 is refused). */
    method HandleConfirmarUbicacion()
      modifies this
      ensures View() == old(View()).(ubicacionConfirmada := old(ubicacionConfirmada) || Usable(old(ubicacion)))
    {
      if !Usable(ubicacion) {
        return;
      }
      ubicacionConfirmada := true;
    }

    /** `handleSubirArchivos`: `clock(k)` is `Date.now()` in the k-th map callback. Returns the
        alert shown, if any. */
    method HandleSubirArchivos(picker: PickerResult, clock: nat -> nat) returns (alerta: Option<string>)
      modifies this
      ensures (archivos, alerta) == Seleccion(old(archivos), picker, clock)
      ensures View() == old(View()).(archivos := archivos)
    {
      var r := Seleccion(archivos, picker, clock);
      archivos := r.0;
      alerta := r.1;
    }

    /** The remove button of entry `index`. */
    method QuitarArchivo(index: int)
      modifies this
      ensures View() == old(View()).(archivos := RemoveAt(old(archivos), index))
      ensures WithinCaps(old(archivos)) ==> WithinCaps(archivos)
    {
      if WithinCaps(archivos) {
        RemoveAtKeepsCaps(archivos, index);
      }
      archivos := RemoveAt(archivos, index);
    }

    /** `handleEnviar`: nothing is sent before the location is confirmed. Otherwise the data and
        the files go to the service, whose create reply is `created` and whose k-th upload settles
        as `settle(k)`; the modal reports success
        or failure and the busy flags end false. */
    method HandleEnviar(service: ReportService, created: Response, settle: nat -> Outcome<UploadResult>)
      returns (envio: Option<Envio>)
      modifies this
      ensures envio.Some? <==> old(ubicacionConfirmada)
      ensures envio.None? ==> View() == old(View())
      ensures envio.Some? ==> envio.value.data == EnviarData(old(tipoIncidente), old(ubicacion))
      ensures envio.Some? ==> envio.value.result == CompletoResult(Some(ParaServicioTodos(old(archivos))), created, settle)
      ensures envio.Some? ==> envio.value.calls == CompletoCalls(Some(ParaServicioTodos(old(archivos))), created)
      ensures envio.Some? ==> View() == old(View()).(modalVisible := true, loading := false, subiendoArchivos := false,
        modalTipo := Modal(envio.value.result.Ok?).0, modalTitulo := Modal(envio.value.result.Ok?).1,
        modalMensaje := Modal(envio.value.result.Ok?).2)
    {
      envio := None;
      if ubicacionConfirmada {
        loading := true;
        subiendoArchivos := true;
        var e := PrepararEnvio(service, created, settle);
        MostrarResultado(e.result.Ok?);
        envio := Some(e);
      }
    }

    /** The `data` built from the form and the service's `crearReporteCompleto` on it and on
        the attached files. */
    method PrepararEnvio(service: ReportService, created: Response, settle: nat -> Outcome<UploadResult>) returns (e: Envio)
      ensures e.data == EnviarData(tipoIncidente, ubicacion)
      ensures e.result == CompletoResult(Some(ParaServicioTodos(archivos)), created, settle)
      ensures e.calls == CompletoCalls(Some(ParaServicioTodos(archivos)), created)
    {
      var data := EnviarData(tipoIncidente, ubicacion);
      var files := ParaServicioTodos(archivos);
      var result, calls, _ := service.CrearReporteCompleto(Some(files), created, settle);
      e := Envio(data, result, calls);
    }

    /** The `then`/`catch`/`finally` continuations: the modal reports the outcome and the busy
        flags end false. */
    method MostrarResultado(ok: bool)
      modifies this
      ensures View() == old(View()).(modalVisible := true, loading := false, subiendoArchivos := false,
        modalTipo := Modal(ok).0, modalTitulo := Modal(ok).1, modalMensaje := Modal(ok).2)
    {
      if ok {
        modalTipo := "exito";
        modalTitulo := TITULO_EXITO;
        modalMensaje := MENSAJE_EXITO;
      } else {
        modalTipo := "error";
        modalTitulo := TITULO_ERROR;
        modalMensaje := MENSAJE_ERROR;
      }
      modalVisible := true;
      loading := false;
      subiendoArchivos := false;
    }
  }
}

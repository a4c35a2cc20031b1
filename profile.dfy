/** The profile screen (`DatosUsuario`): loading the stored user record with
    its fallbacks, editing the editable fields, and saving the record back. */
module Profile {
  import opened Seqs
  import opened Json
  import opened Storage
  import opened Auth

  datatype DatosUsuario = DatosUsuario(
    id: string,
    nombreCompleto: string,
    email: string,
    usuario: string,
    numeroTelefono: string,
    fotoPerfilUri: Option<string>)

  /** The state before anything is loaded. */
  const EmptyDatos := DatosUsuario("", "", "", "", "", None)

  const UserKey := "usuario"

  /** `usuario.key || fallback` for a property of the parsed record: a
      non-empty string, otherwise the fallback. */
  function StringOr(v: Option<Json>, fallback: string): (r: string)
    ensures v.Some? && v.value.JStr? && v.value.s != "" ==> r == v.value.s
    ensures !(v.Some? && v.value.JStr? && v.value.s != "") ==> r == fallback
  {
    if v.Some? && v.value.JStr? && v.value.s != "" then v.value.s else fallback
  }

  /** `usuario.fotoPerfilUri`, taken as it is. */
  function PhotoOf(v: Option<Json>): Option<string> {
    if v.Some? && v.value.JStr? then Some(v.value.s) else None
  }

  /** The record `cargarDatosUsuario` shows for the members of a parsed
      object: no text field is ever shown empty, and a record without a
      photo shows none. */
  function FromMembers(ms: seq<Member>): (r: DatosUsuario)
    ensures r.id != "" && r.nombreCompleto != "" && r.email != "" && r.usuario != "" && r.numeroTelefono != ""
    ensures Get(ms, "fotoPerfilUri").None? ==> r.fotoPerfilUri.None?
  {
    DatosUsuario(
      StringOr(Get(ms, "id"), "1"),
      StringOr(Get(ms, "nombre"), "Rex Raptor"),
      StringOr(Get(ms, "email"), "rexraptor@gmail.com"),
      StringOr(Get(ms, "usuario"), "rexraptor045"),
      StringOr(Get(ms, "telefono"), "+503 7777-7777"),
      PhotoOf(Get(ms, "fotoPerfilUri")))
  }

  /** What a load does: keep the current data (nothing stored), show a record,
      or fail with an alert (text that does not parse, or `null`, whose
      properties cannot be read). */
  datatype LoadStep = Keep | Show(datos: DatosUsuario) | Fail

  function LoadStepOf(saved: Option<string>): (r: LoadStep)
    ensures r.Keep? <==> saved.None? || saved.value == ""
    ensures r.Fail? <==> saved.Some? && saved.value != "" && (Parse(saved.value).None? || Parse(saved.value) == Some(JNull))
  {
    if saved.None? || saved.value == "" then Keep
    else match Parse(saved.value)
      case None => Fail
      case Some(JNull) => Fail
      case Some(JObj(ms)) => Show(FromMembers(ms))
      case Some(_) => Show(FromMembers([]))
  }

  /** The object `guardarDatosUsuario` stores: the profile's own keys (the
      photo only when there is one, since `JSON.stringify` drops undefined),
      then `nombre` and `telefono` copied from the name and the phone. Every
      key a load reads finds the field it belongs to. */
  function SaveJson(d: DatosUsuario): (r: Json)
    ensures r.JObj?
    ensures Get(r.members, "id") == Some(JStr(d.id))
    ensures Get(r.members, "email") == Some(JStr(d.email))
    ensures Get(r.members, "usuario") == Some(JStr(d.usuario))
    ensures Get(r.members, "nombre") == Some(JStr(d.nombreCompleto))
    ensures Get(r.members, "telefono") == Some(JStr(d.numeroTelefono))
    ensures Get(r.members, "fotoPerfilUri") == if d.fotoPerfilUri.Some? then Some(JStr(d.fotoPerfilUri.value)) else None
  {
    var ms := [
        Member("id", JStr(d.id)),
        Member("nombreCompleto", JStr(d.nombreCompleto)),
        Member("email", JStr(d.email)),
        Member("usuario", JStr(d.usuario)),
        Member("numeroTelefono", JStr(d.numeroTelefono))]
      + (if d.fotoPerfilUri.Some? then [Member("fotoPerfilUri", JStr(d.fotoPerfilUri.value))] else [])
      + [Member("nombre", JStr(d.nombreCompleto)), Member("telefono", JStr(d.numeroTelefono))];
    GetFound(ms, "id", 0);
    GetFound(ms, "email", 2);
    GetFound(ms, "usuario", 3);
    GetFound(ms, "nombre", |ms| - 2);
    GetFound(ms, "telefono", |ms| - 1);
    assert Get(ms, "fotoPerfilUri") == if d.fotoPerfilUri.Some? then Some(JStr(d.fotoPerfilUri.value)) else None by {
      if d.fotoPerfilUri.Some? {
        GetFound(ms, "fotoPerfilUri", 5);
      } else {
        GetMissing(ms, "fotoPerfilUri");
      }
    }
    JObj(ms)
  }

  /** The shown value of a field after a load: itself, or its fallback when empty. */
  function OrDefault(s: string, fallback: string): string {
    if s != "" then s else fallback
  }

  /** What a reload shows after a save: every non-empty field as saved, an
      emptied field as its fallback, and the photo as it was. */
  function Reloaded(d: DatosUsuario): DatosUsuario {
    DatosUsuario(
      OrDefault(d.id, "1"),
      OrDefault(d.nombreCompleto, "Rex Raptor"),
      OrDefault(d.email, "rexraptor@gmail.com"),
      OrDefault(d.usuario, "rexraptor045"),
      OrDefault(d.numeroTelefono, "+503 7777-7777"),
      d.fotoPerfilUri)
  }

  /** Saving and then loading gives `Reloaded(d)`: the saved profile comes
      back exactly when none of its text fields is empty. */
  lemma SaveLoadRoundTrip(d: DatosUsuario)
    ensures LoadStepOf(Some(Stringify(SaveJson(d)))) == Show(Reloaded(d))
    ensures Reloaded(d) == d <==> d.id != "" && d.nombreCompleto != "" && d.email != "" && d.usuario != "" && d.numeroTelefono != ""
  {
    assert Parse("") == None;
  }

  /** Right after a registration the profile shows the registered id, name
      and e-mail, and the fallbacks for the user name and the phone, which
      the registration does not store. */
  lemma ProfileAfterRegistration(datos: DatosRegistro, id: string)
    ensures LoadStepOf(Some(Stringify(UserJson(RegisteredUser(datos, id))))) ==
      Show(DatosUsuario(OrDefault(id, "1"), OrDefault(datos.nombre, "Rex Raptor"),
        OrDefault(datos.email, "rexraptor@gmail.com"), "rexraptor045", "+503 7777-7777", None))
  {
    assert Parse("") == None;
  }

  // ----- editing ------------------------------------------------------------

  /** The four fields of the form. */
  datatype Campo = CampoNombre | CampoEmail | CampoUsuario | CampoTelefono

  function Field(d: DatosUsuario, c: Campo): string {
    match c
    case CampoNombre => d.nombreCompleto
    case CampoEmail => d.email
    case CampoUsuario => d.usuario
    case CampoTelefono => d.numeroTelefono
  }

  /** `{ ...prev, [campo]: valor }`: the field is set and the id and the photo kept. */
  function With(d: DatosUsuario, c: Campo, v: string): (r: DatosUsuario)
    ensures Field(r, c) == v
    ensures r.id == d.id && r.fotoPerfilUri == d.fotoPerfilUri
  {
    match c
    case CampoNombre => d.(nombreCompleto := v)
    case CampoEmail => d.(email := v)
    case CampoUsuario => d.(usuario := v)
    case CampoTelefono => d.(numeroTelefono := v)
  }

  /** An update sets its field and leaves the others, the id and the photo alone. */
  lemma WithSetsOneField(d: DatosUsuario, c: Campo, v: string, other: Campo)
    ensures Field(With(d, c, v), c) == v
    ensures other != c ==> Field(With(d, c, v), other) == Field(d, other)
    ensures With(d, c, v).id == d.id && With(d, c, v).fotoPerfilUri == d.fotoPerfilUri
  {
  }

  /** The `editable` flags of `camposFormulario`: the e-mail is read-only. */
  predicate Editable(c: Campo) {
    c != CampoEmail
  }

  class ProfileScreen {
    var datosUsuario: DatosUsuario
    var modoEdicion: bool
    var cargando: bool
    var guardando: bool

    constructor()
      ensures datosUsuario == EmptyDatos && !modoEdicion && cargando && !guardando
    {
      datosUsuario := EmptyDatos;
      modoEdicion := false;
      cargando := true;
      guardando := false;
    }

    /** `cargarDatosUsuario`: shows what the stored record yields, keeps the
        current data when nothing is stored, and alerts when the read or the
        parse fails; the loading flag is off afterwards. */
    method CargarDatosUsuario(store: Store, readFails: bool) returns (alert: bool)
      modifies this
      ensures var step := if readFails then Fail else LoadStepOf(store.Get(UserKey));
        && alert == step.Fail?
        && datosUsuario == (if step.Show? then step.datos else old(datosUsuario))
      ensures !cargando && modoEdicion == old(modoEdicion) && guardando == old(guardando)
    {
      cargando := true;
      var step := if readFails then Fail else LoadStepOf(store.Get(UserKey));
      alert := step.Fail?;
      if step.Show? {
        datosUsuario := step.datos;
      }
      cargando := false;
    }

    /** `guardarDatosUsuario`: stores the record and leaves edit mode; a failed
        write changes neither. The saving flag is off afterwards. */
    method GuardarDatosUsuario(store: Store, writeFails: bool) returns (saved: bool)
      modifies this, store
      ensures saved == !writeFails
      ensures datosUsuario == old(datosUsuario) && !guardando && cargando == old(cargando)
      ensures saved ==> store.items == old(store.items)[UserKey := Stringify(SaveJson(datosUsuario))] && !modoEdicion
      ensures !saved ==> store.items == old(store.items) && modoEdicion == old(modoEdicion)
    {
      guardando := true;
      if writeFails {
        saved := false;
      } else {
        store.SetItem(UserKey, Stringify(SaveJson(datosUsuario)));
        modoEdicion := false;
        saved := true;
      }
      guardando := false;
    }

    /** `handleCancelarEdicion`: leaves edit mode and reloads the stored record. */
    method HandleCancelarEdicion(store: Store, readFails: bool) returns (alert: bool)
      modifies this
      ensures !modoEdicion && !cargando && guardando == old(guardando)
      ensures var step := if readFails then Fail else LoadStepOf(store.Get(UserKey));
        && alert == step.Fail?
        && datosUsuario == (if step.Show? then step.datos else old(datosUsuario))
    {
      modoEdicion := false;
      alert := CargarDatosUsuario(store, readFails);
    }

    /** `actualizarCampo` */
    method ActualizarCampo(c: Campo, v: string)
      modifies this
      ensures datosUsuario == With(old(datosUsuario), c, v)
      ensures modoEdicion == old(modoEdicion) && cargando == old(cargando) && guardando == old(guardando)
    {
      datosUsuario := With(datosUsuario, c, v);
    }

    /** `esEditable`: a field takes input only in edit mode, and the e-mail never. */
    function EsEditable(c: Campo): (r: bool)
      reads this
      ensures r <==> modoEdicion && c != CampoEmail
    {
      modoEdicion && Editable(c)
    }

    /** The header button: disabled while saving; otherwise it saves in edit
        mode and enters edit mode out of it. */
    method PressEditButton(store: Store, writeFails: bool) returns (saved: Option<bool>)
      modifies this, store
      ensures old(guardando) ==> saved.None? && modoEdicion == old(modoEdicion) && store.items == old(store.items)
      ensures !old(guardando) && !old(modoEdicion) ==> saved.None? && modoEdicion && store.items == old(store.items)
      ensures !old(guardando) && old(modoEdicion) ==>
        && saved == Some(!writeFails)
        && store.items == (if writeFails then old(store.items) else old(store.items)[UserKey := Stringify(SaveJson(datosUsuario))])
        && modoEdicion == writeFails
      ensures datosUsuario == old(datosUsuario) && guardando == old(guardando) && cargando == old(cargando)
    {
      if guardando {
        saved := None;
      } else if modoEdicion {
        var ok := GuardarDatosUsuario(store, writeFails);
        saved := Some(ok);
      } else {
        modoEdicion := true;
        saved := None;
      }
    }
  }

  /** A save followed by a cancel shows `Reloaded` of what was saved. */
  method SaveThenCancel(screen: ProfileScreen, store: Store) returns (shown: DatosUsuario)
    modifies screen, store
    ensures shown == Reloaded(old(screen.datosUsuario)) && shown == screen.datosUsuario
    ensures !screen.modoEdicion
  {
    var _ := screen.GuardarDatosUsuario(store, false);
    SaveLoadRoundTrip(screen.datosUsuario);
    var _ := screen.HandleCancelarEdicion(store, false);
    shown := screen.datosUsuario;
  }
}

/** The sign-up screen's handler `manejarRegistro`: its own password checks,
    the simulated registration, the token and user record it stores, and the
    loading flag around it all. */
module RegisterScreen {
  import opened Seqs
  import opened Text
  import opened Json
  import opened Forms
  import opened Storage
  import opened Auth

  const TokenKey := "token"
  const FakeToken := "fake-jwt-token"
  const UserKey := "usuario"

  /** How the handler ends: the user handed to `onRegister` once the success
      alert is confirmed, a validation alert, or the failure alert. */
  datatype RegistroResult = Registered(usuario: Usuario) | Invalid(reason: Rejection) | Failed

  /** Which storage write, if any, throws. */
  datatype StoreFault = NoFault | TokenWriteFails | UserWriteFails

  /** The screen's own checks: equal passwords, then at least 6 UTF-16 code
      units. Only those two alerts can come from here, and none comes exactly
      when both hold. */
  function ScreenCheck(datos: DatosRegistro): (r: Option<Rejection>)
    ensures r.Some? ==> r.value in {PasswordMismatch, PasswordTooShort}
    ensures r.None? <==> datos.contrasena == datos.confirmarContrasena && Utf16Length(datos.contrasena) >= 6
  {
    if datos.contrasena != datos.confirmarContrasena then Some(PasswordMismatch)
    else if Utf16Length(datos.contrasena) < 6 then Some(PasswordTooShort)
    else None
  }

  /** Whatever the sign-up form hands on already passes the screen's checks,
      so those alerts can only come from another caller. */
  lemma FormPassesScreen(f: RegistroForm)
    requires RegistroCheck(f).Accepted?
    ensures ScreenCheck(RegistroCheck(f).value) == None
    ensures RegisteredUser(RegistroCheck(f).value, "").tipoUsuario == Regular
  {
    RegistroAccepted(f);
  }

  class RegisterScreenState {
    var cargando: bool

    constructor()
      ensures !cargando
    {
      cargando := false;
    }

    /** `manejarRegistro`. A failed check stores nothing. Past the checks the
        token is written, then the user record as JSON; a write that throws
        ends in the failure alert with the earlier writes kept. The loading
        flag is off again however the handler ends. `id` is the
        `Date.now()` text of the moment. */
    method ManejarRegistro(datos: DatosRegistro, store: Store, id: string, fault: StoreFault) returns (r: RegistroResult)
      modifies this, store
      ensures !cargando
      ensures ScreenCheck(datos).Some? ==> r == Invalid(ScreenCheck(datos).value) && store.items == old(store.items)
      ensures ScreenCheck(datos).None? && fault == TokenWriteFails ==> r == Failed && store.items == old(store.items)
      ensures ScreenCheck(datos).None? && fault == UserWriteFails ==>
        r == Failed && store.items == old(store.items)[TokenKey := FakeToken]
      ensures ScreenCheck(datos).None? && fault == NoFault ==>
        && r == Registered(RegisteredUser(datos, id))
        && store.items == old(store.items)[TokenKey := FakeToken][UserKey := Stringify(UserJson(r.usuario))]
    {
      cargando := true;
      if datos.contrasena != datos.confirmarContrasena {
        r := Invalid(PasswordMismatch);
        cargando := false;
        return;
      }
      if Utf16Length(datos.contrasena) < 6 {
        r := Invalid(PasswordTooShort);
        cargando := false;
        return;
      }
      var usuarioRegistrado := RegisteredUser(datos, id);
      if fault == TokenWriteFails {
        r := Failed;
      } else {
        store.SetItem(TokenKey, FakeToken);
        if fault == UserWriteFails {
          r := Failed;
        } else {
          store.SetItem(UserKey, Stringify(UserJson(usuarioRegistrado)));
          r := Registered(usuarioRegistrado);
        }
      }
      cargando := false;
    }
  }
}

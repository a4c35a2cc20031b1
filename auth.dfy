/** The sign-up and log-in forms: their checks in the order the alerts come,
    and the record each hands on once every check passes. Also the user
    record a registration produces and its JSON form. */
module Auth {
  import opened Text
  import opened Seqs
  import opened Json
  import opened Forms

  /** 'usuario' or 'admin' */
  datatype UserType = Regular | Admin

  function UserTypeName(t: UserType): string {
    match t
    case Regular => "usuario"
    case Admin => "admin"
  }

  /** `DatosRegistro`: what the sign-up form hands on (`tipoUsuario` is optional). */
  datatype DatosRegistro = DatosRegistro(
    nombre: string,
    email: string,
    contrasena: string,
    confirmarContrasena: string,
    tipoUsuario: Option<UserType>)

  /** The four text fields of the sign-up form, as typed. */
  datatype RegistroForm = RegistroForm(nombre: string, email: string, contrasena: string, confirmarContrasena: string)

  /** `!x.trim()`: the field holds nothing but white space. */
  predicate Blank(s: string) {
    Trim(s) == ""
  }

  /** `manejarEnvio` of the sign-up form: all four fields non-blank, an '@' in
      the e-mail, equal passwords of at least 6 UTF-16 code units (JavaScript's
      `length`); then the name and
      e-mail go on trimmed, the passwords as typed, as an ordinary user. */
  function RegistroCheck(f: RegistroForm): (r: Outcome<DatosRegistro>)
    ensures r.Rejected? ==> r.reason in {MissingFields, InvalidEmail, PasswordMismatch, PasswordTooShort}
    ensures r.Accepted? ==>
      && r.value.nombre != "" && r.value.email != ""
      && r.value.contrasena == r.value.confirmarContrasena == f.contrasena
      && Utf16Length(r.value.contrasena) >= 6
      && r.value.tipoUsuario == Some(Regular)
  {
    if Blank(f.nombre) || Blank(f.email) || Blank(f.contrasena) || Blank(f.confirmarContrasena) then Rejected(MissingFields)
    else if !Includes(f.email, "@") then Rejected(InvalidEmail)
    else if f.contrasena != f.confirmarContrasena then Rejected(PasswordMismatch)
    else if Utf16Length(f.contrasena) < 6 then Rejected(PasswordTooShort)
    else Accepted(DatosRegistro(Trim(f.nombre), Trim(f.email), f.contrasena, f.confirmarContrasena, Some(Regular)))
  }

  /** The sign-up checks in terms of the characters typed. */
  lemma RegistroChecksMean(f: RegistroForm)
    ensures Blank(f.nombre) <==> AllSpace(f.nombre)
    ensures Blank(f.email) <==> AllSpace(f.email)
    ensures Blank(f.contrasena) <==> AllSpace(f.contrasena)
    ensures Blank(f.confirmarContrasena) <==> AllSpace(f.confirmarContrasena)
    ensures Includes(f.email, "@") <==> '@' in f.email
    ensures '@' in Trim(f.email) <==> '@' in f.email
  {
    TrimEmptyIff(f.nombre);
    TrimEmptyIff(f.email);
    TrimEmptyIff(f.contrasena);
    TrimEmptyIff(f.confirmarContrasena);
    IncludesChar(f.email, '@');
    assert "@" == ['@'];
    TrimKeeps(f.email, '@');
  }

  /** Each alert of the sign-up form comes exactly when every earlier check
      passed and its own fails, and the form hands on a record exactly when
      all pass. */
  lemma RegistroOutcome(f: RegistroForm)
    ensures var r := RegistroCheck(f);
      var filled := !AllSpace(f.nombre) && !AllSpace(f.email) && !AllSpace(f.contrasena) && !AllSpace(f.confirmarContrasena);
      && (r == Rejected(MissingFields) <==> !filled)
      && (r == Rejected(InvalidEmail) <==> filled && '@' !in f.email)
      && (r == Rejected(PasswordMismatch) <==> filled && '@' in f.email && f.contrasena != f.confirmarContrasena)
      && (r == Rejected(PasswordTooShort) <==>
            filled && '@' in f.email && f.contrasena == f.confirmarContrasena && Utf16Length(f.contrasena) < 6)
      && (r.Accepted? <==>
            filled && '@' in f.email && f.contrasena == f.confirmarContrasena && Utf16Length(f.contrasena) >= 6)
  {
    RegistroChecksMean(f);
  }

  /** A record handed on has a non-blank trimmed name, a trimmed e-mail with
      an '@', a confirmed password of at least 6 characters and the ordinary
      user type. */
  lemma RegistroAccepted(f: RegistroForm)
    requires RegistroCheck(f).Accepted?
    ensures var d := RegistroCheck(f).value;
      && d.nombre == Trim(f.nombre) && d.nombre != ""
      && d.email == Trim(f.email) && '@' in d.email
      && d.contrasena == f.contrasena == d.confirmarContrasena
      && Utf16Length(d.contrasena) >= 6
      && d.tipoUsuario == Some(Regular)
  {
    RegistroChecksMean(f);
  }

  /** Length is counted as JavaScript counts it: three characters outside the
      Basic Multilingual Plane are six code units, enough for a password. */
  lemma AstralPasswordAccepted()
    ensures var e := "\U{1F600}\U{1F600}\U{1F600}";
      |e| == 3 && RegistroCheck(RegistroForm("Ana", "ana@x.sv", e, e)).Accepted?
  {
    var e := "\U{1F600}\U{1F600}\U{1F600}";
    NotBlank("Ana");
    NotBlank("ana@x.sv");
    NotBlank(e);
    IncludesChar("ana@x.sv", '@');
    assert "ana@x.sv"[3] == '@';
    assert "@" == ['@'];
    assert Utf16Length(e) == 6 by {
      assert e[1..][1..][1..] == [];
    }
  }

  /** A text that starts with a character other than white space is not blank. */
  lemma NotBlank(s: string)
    requires s != [] && !IsSpace(s[0])
    ensures !Blank(s)
  {
    TrimEmptyIff(s);
  }

  datatype LoginForm = LoginForm(email: string, contrasena: string)

  /** `CredencialesLogin` */
  datatype Credenciales = Credenciales(email: string, contrasena: string)

  /** `manejarEnvio` of the log-in form: both fields non-blank and an '@' in the
      e-mail; the e-mail goes on trimmed and the password as typed. */
  function LoginCheck(f: LoginForm): (r: Outcome<Credenciales>)
    ensures r.Rejected? ==> r.reason in {MissingFields, InvalidEmail}
    ensures r.Accepted? ==> r.value.email != "" && r.value.contrasena == f.contrasena
  {
    if Blank(f.email) || Blank(f.contrasena) then Rejected(MissingFields)
    else if !Includes(f.email, "@") then Rejected(InvalidEmail)
    else Accepted(Credenciales(Trim(f.email), f.contrasena))
  }

  /** The log-in form hands on credentials exactly when both fields hold more
      than white space and the e-mail has an '@', which the trimmed e-mail keeps. */
  lemma LoginOutcome(f: LoginForm)
    ensures var r := LoginCheck(f);
      && (r == Rejected(MissingFields) <==> AllSpace(f.email) || AllSpace(f.contrasena))
      && (r == Rejected(InvalidEmail) <==> !AllSpace(f.email) && !AllSpace(f.contrasena) && '@' !in f.email)
      && (r.Accepted? <==> !AllSpace(f.email) && !AllSpace(f.contrasena) && '@' in f.email)
      && (r.Accepted? ==>
            r.value == Credenciales(Trim(f.email), f.contrasena) && '@' in r.value.email)
  {
    TrimEmptyIff(f.email);
    TrimEmptyIff(f.contrasena);
    IncludesChar(f.email, '@');
    assert "@" == ['@'];
    TrimKeeps(f.email, '@');
  }

  // ----- the stored user ----------------------------------------------------

  /** `usuarioRegistrado`: the user record a registration stores. */
  datatype Usuario = Usuario(id: string, nombre: string, email: string, tipoUsuario: UserType, tipoUsuarioCodigo: nat)

  /** The numeric role of an ordinary user, which the navigator maps to the user flow. */
  const UsuarioNormal: nat := 4

  /** The record built from the sign-up data: a missing type is 'usuario', the role is always 4. */
  function RegisteredUser(datos: DatosRegistro, id: string): (u: Usuario)
    ensures u.nombre == datos.nombre && u.email == datos.email && u.id == id
    ensures u.tipoUsuario == (if datos.tipoUsuario.Some? then datos.tipoUsuario.value else Regular)
    ensures u.tipoUsuarioCodigo == UsuarioNormal
  {
    Usuario(id, datos.nombre, datos.email,
      if datos.tipoUsuario.Some? then datos.tipoUsuario.value else Regular, UsuarioNormal)
  }

  /** The object `JSON.stringify` is given, keys in the order of the literal:
      each key reads back its field, and the keys the profile also looks for
      (user name, phone, photo) are absent. */
  function UserJson(u: Usuario): (r: Json)
    ensures r.JObj?
    ensures Get(r.members, "id") == Some(JStr(u.id))
    ensures Get(r.members, "nombre") == Some(JStr(u.nombre))
    ensures Get(r.members, "email") == Some(JStr(u.email))
    ensures Get(r.members, "tipoUsuario") == Some(JStr(UserTypeName(u.tipoUsuario)))
    ensures Get(r.members, "tipo_usuario") == Some(JNum(u.tipoUsuarioCodigo))
    ensures Get(r.members, "usuario") == None && Get(r.members, "telefono") == None
    ensures Get(r.members, "fotoPerfilUri") == None
  {
    var ms := [
      Member("id", JStr(u.id)),
      Member("nombre", JStr(u.nombre)),
      Member("email", JStr(u.email)),
      Member("tipoUsuario", JStr(UserTypeName(u.tipoUsuario))),
      Member("tipo_usuario", JNum(u.tipoUsuarioCodigo))];
    GetFound(ms, "id", 0);
    GetFound(ms, "nombre", 1);
    GetFound(ms, "email", 2);
    GetFound(ms, "tipoUsuario", 3);
    GetFound(ms, "tipo_usuario", 4);
    GetMissing(ms, "usuario");
    GetMissing(ms, "telefono");
    GetMissing(ms, "fotoPerfilUri");
    JObj(ms)
  }
}

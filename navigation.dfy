/** The root navigator: which flow renders for an authentication flag and a
    numeric user role. */
module Navigation {
  import opened Seqs
  import opened Auth

  datatype Destination = AuthFlow | AdminWelcome | EmpresaWelcome | EmpleadoWelcome | UserFlow

  /** The role codes with a screen of their own. */
  function RoleScreen(role: int): Option<Destination> {
    if role == 1 then Some(AdminWelcome)
    else if role == 2 then Some(EmpresaWelcome)
    else if role == 3 then Some(EmpleadoWelcome)
    else None
  }

  /** `AppNavigator`: the sign-in flow without authentication; otherwise the
      welcome screen of roles 1 to 3 and the user flow for role 4, any other
      role or none. */
  function Route(isAuthenticated: bool, userRole: Option<int>): (d: Destination)
    ensures d == AuthFlow <==> !isAuthenticated
    ensures d == AdminWelcome <==> isAuthenticated && userRole == Some(1)
    ensures d == EmpresaWelcome <==> isAuthenticated && userRole == Some(2)
    ensures d == EmpleadoWelcome <==> isAuthenticated && userRole == Some(3)
    ensures d == UserFlow <==> isAuthenticated && (userRole.None? || userRole.value !in {1, 2, 3})
  {
    if !isAuthenticated then AuthFlow
    else if userRole.Some? && RoleScreen(userRole.value).Some? then RoleScreen(userRole.value).value
    else UserFlow
  }

  /** Whatever the sign-up data, the user record a registration builds has a
      role that leads to the user flow once signed in, and to the sign-in
      flow before. */
  lemma RegisteredUserRoute(datos: DatosRegistro, id: string)
    ensures var role := RegisteredUser(datos, id).tipoUsuarioCodigo as int;
      Route(true, Some(role)) == UserFlow && Route(false, Some(role)) == AuthFlow
  {
  }
}

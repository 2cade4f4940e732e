/** The account views of the game: registration with an optional admin code,
    account confirmation, admin-code request and redemption, the `es_admin`
    gate and login. Each view reads one `Usuario` row, assigns its fields and
    saves it; the pure functions here say what the saved row is, and the
    methods perform the read-modify-write on the table. */
module Views {
  import opened Text
  import opened Models
  import opened Middleware

  // ------------------------------------------------------------------
  // Configuration and constants
  // ------------------------------------------------------------------

  /** The process-wide admin secret and the number of characters of the
      submitted `admin_code` that `register` keeps. */
  datatype Config = Config(codigoSecretoAdmin: string, maxCodigoAdmin: nat)

  const ADMIN_SECRET_CODE: string := "TU_CODIGO_SECRETO_AQUI"

  /** `max_length` of the `admin_code` form field. */
  const MAX_ADMIN_CODE_FORM: nat := 50

  /** `max_length` of the `codigo` field of the admin-code form. */
  const MAX_CODIGO_FORM: nat := 100

  /** The configuration as shipped: the code is cut to 20 characters. */
  const CONFIG: Config := Config(ADMIN_SECRET_CODE, 20)

  /** The cut raised to the form's own limit, so that the secret fits. */
  const CONFIG_CORREGIDA: Config := Config(ADMIN_SECRET_CODE, MAX_ADMIN_CODE_FORM)

  /** `token_hex(3)`: the 6-digit confirmation token mailed at registration. */
  const BYTES_TOKEN_CONFIRMACION: nat := 3

  /** `token_hex(4)`: the 8-digit code mailed on request. */
  const BYTES_TOKEN_ADMIN: nat := 4

  // ------------------------------------------------------------------
  // Looking rows up
  // ------------------------------------------------------------------

  datatype Campo = PorUsername | PorCorreo

  function Clave(u: Usuario, campo: Campo): string {
    match campo
    case PorUsername => u.username
    case PorCorreo => u.correo
  }

  /** `Usuario.objects.get(<campo>=valor)`: the row whose column holds
      `valor`, or `None` for `DoesNotExist`. On a table with unique columns
      the row found is the only one. */
  function Buscar(filas: seq<Usuario>, campo: Campo, valor: string): (r: Option<nat>)
    ensures r.Some? ==> r.value < |filas| && Clave(filas[r.value], campo) == valor
    ensures r.None? <==> forall i :: 0 <= i < |filas| ==> Clave(filas[i], campo) != valor
    ensures r.Some? && Unicos(filas) ==>
      forall i :: 0 <= i < |filas| && Clave(filas[i], campo) == valor ==> i == r.value
  {
    if filas == [] then
      None
    else if Clave(filas[0], campo) == valor then
      Some(0)
    else
      assert Unicos(filas) ==> Unicos(filas[1..]);
      match Buscar(filas[1..], campo, valor)
      case None => None
      case Some(i) => Some(i + 1)
  }

  // ------------------------------------------------------------------
  // es_admin
  // ------------------------------------------------------------------

  /** `es_admin`: any one of the three signals makes a user an administrator;
      only a `Jugador` with neither flag is refused. */
  function EsAdmin(u: Usuario): (b: bool)
    ensures u.rol == Admin ==> b
    ensures u.isStaff ==> b
    ensures u.isSuperuser ==> b
    ensures !b <==> u.rol == Jugador && !u.isStaff && !u.isSuperuser
  {
    u.isSuperuser || u.isStaff || u.rol == Admin
  }

  // ------------------------------------------------------------------
  // register
  // ------------------------------------------------------------------

  /** The submitted `admin_code`, stripped and cut to the configured length. */
  function CodigoAdmin(cfg: Config, adminCode: string): (c: string)
    ensures |c| <= cfg.maxCodigoAdmin && c <= Strip(adminCode)
    ensures |Strip(adminCode)| <= cfg.maxCodigoAdmin ==> c == Strip(adminCode)
    ensures |Strip(adminCode)| > cfg.maxCodigoAdmin ==> |c| == cfg.maxCodigoAdmin
    ensures c == [] || !EsEspacio(c[0])
  {
    Corte(Strip(adminCode), cfg.maxCodigoAdmin)
  }

  /** The guard of the admin branch of `register`. */
  predicate ConcedeAdmin(cfg: Config, adminCode: string) {
    var c := CodigoAdmin(cfg, adminCode);
    c != "" && c == cfg.codigoSecretoAdmin
  }

  /** A secret longer than the cut can never be matched. */
  lemma SecretoLargoNuncaConcede(cfg: Config, adminCode: string)
    requires |cfg.codigoSecretoAdmin| > cfg.maxCodigoAdmin
    ensures !ConcedeAdmin(cfg, adminCode)
  {
  }

  /** As shipped, the 22-character secret is compared with at most 20
      characters of input: registration never grants admin. */
  lemma AdminInalcanzable(adminCode: string)
    ensures !ConcedeAdmin(CONFIG, adminCode)
  {
  }

  /** When the secret fits the cut, an input that fits the cut grants admin
      exactly when it strips to the secret (surrounding whitespace allowed). */
  lemma SecretoConcedeAdmin(cfg: Config, adminCode: string)
    requires cfg.codigoSecretoAdmin != "" && |cfg.codigoSecretoAdmin| <= cfg.maxCodigoAdmin
    requires |Strip(adminCode)| <= cfg.maxCodigoAdmin
    ensures ConcedeAdmin(cfg, adminCode) <==> Strip(adminCode) == cfg.codigoSecretoAdmin
  {
  }

  /** With the cut raised to the form's limit, the shipped secret grants admin. */
  lemma ConfigCorregidaConcedeAdmin(adminCode: string)
    requires Strip(adminCode) == ADMIN_SECRET_CODE
    ensures ConcedeAdmin(CONFIG_CORREGIDA, adminCode)
    ensures !ConcedeAdmin(CONFIG, adminCode)
  {
  }

  /** The row `register` saves for a valid form. The role submitted in the
      form plays no part: the row is `Jugador` unless the admin code matches,
      and then it is an admin on all three signals, with a key. Either way it
      carries the mailed confirmation token. */
  function NuevaCuenta(cfg: Config, username: string, correo: string, adminCode: string,
                       token: string, llave: string): (u: Usuario)
    requires EsTokenHex(token, BYTES_TOKEN_CONFIRMACION) && EsTokenHex(llave, BYTES_LLAVE)
    ensures u.username == username && u.correo == correo
    ensures u.rol == Admin <==> ConcedeAdmin(cfg, adminCode)
    ensures EsAdmin(u) <==> ConcedeAdmin(cfg, adminCode)
    ensures u.rol == Admin ==> u.isStaff && u.isSuperuser && u.llaveSeguridad == Some(llave)
    ensures u.rol == Jugador ==> !u.isStaff && !u.isSuperuser && u.llaveSeguridad.None?
    ensures u.adminToken == Some(token) && !Vacio(u.adminToken)
    ensures u.isActive && LlaveAlDia(u) && CamposValidos(u)
  {
    var admin := ConcedeAdmin(cfg, adminCode);
    Usuario(username, correo, if admin then Admin else Jugador, Some(token),
            if admin then Some(llave) else None, admin, admin, true)
  }

  /** `form.is_valid()` for the registration form: the framework's own checks
      (passwords, username syntax) as `formularioOk`, the unique columns, and
      the optional admin code, which once stripped must fit its 50 characters
      and hold no NUL character. */
  predicate RegistroValido(filas: seq<Usuario>, formularioOk: bool, username: string,
                           correo: string, adminCode: string) {
    formularioOk && Buscar(filas, PorUsername, username).None?
    && Buscar(filas, PorCorreo, correo).None?
    && |Strip(adminCode)| <= MAX_ADMIN_CODE_FORM && SinNulos(Strip(adminCode))
  }

  datatype RespuestaRegistro =
    | FormularioRegistroInvalido
      /** `llaveMostrada` is the key announced to a new admin; `correoEnviado`
          is false when only the warning about the mail was shown. */
    | Registrado(id: nat, llaveMostrada: Option<string>, correoEnviado: bool)

  /** `register` on a POST. `username` and `correo` are the form's cleaned
      values, so the framework has already stripped them; `adminCode` is the
      raw `admin_code` field (`""` when missing), which the view strips and
      cuts itself. `token` and `llave` are the values `token_hex` would
      return; `correoOk` says whether `send_mail` succeeds. The row is saved
      before the mail is attempted, so a failed mail keeps it. */
  method Register(db: TablaUsuarios, cfg: Config, username: string, correo: string,
                  rolEnviado: Rol, formularioOk: bool, adminCode: string,
                  token: string, llave: string, correoOk: bool)
    returns (res: RespuestaRegistro)
    requires db.Valid()
    requires EsTokenHex(token, BYTES_TOKEN_CONFIRMACION) && EsTokenHex(llave, BYTES_LLAVE)
    modifies db
    ensures db.Valid()
    ensures res.FormularioRegistroInvalido? <==>
      !RegistroValido(old(db.filas), formularioOk, username, correo, adminCode)
    ensures res.FormularioRegistroInvalido? ==> db.filas == old(db.filas)
    ensures res.Registrado? ==>
      res.id == |old(db.filas)| &&
      db.filas == old(db.filas) + [NuevaCuenta(cfg, username, correo, adminCode, token, llave)]
    ensures res.Registrado? ==>
      res.correoEnviado == correoOk &&
      res.llaveMostrada == (if ConcedeAdmin(cfg, adminCode) then Some(llave) else None)
    ensures TodasConLlave(old(db.filas)) ==> TodasConLlave(db.filas)
  {
    var codigo := Corte(Strip(adminCode), cfg.maxCodigoAdmin);
    if !RegistroValido(db.filas, formularioOk, username, correo, adminCode) {
      return FormularioRegistroInvalido;
    }
    // form.save(commit=False): the submitted role and the column defaults
    var usuario := Usuario(username, correo, rolEnviado, None, None, false, false, true);
    usuario := usuario.(rol := Jugador);
    var llaveMostrada: Option<string> := None;
    if codigo != "" && codigo == cfg.codigoSecretoAdmin {
      usuario := usuario.(rol := Admin, isStaff := true, isSuperuser := true);
      usuario := usuario.(llaveSeguridad := Some(llave));
      llaveMostrada := Some(llave);
    }
    usuario := usuario.(adminToken := Some(token));
    var id := db.Insertar(usuario);
    res := Registrado(id, llaveMostrada, correoOk);
  }

  // ------------------------------------------------------------------
  // confirmar_codigo
  // ------------------------------------------------------------------

  /** The guard of `confirmar_codigo`: a pending token, a non-empty code, equal. */
  predicate ConfirmaCodigo(u: Usuario, codigo: string) {
    !Vacio(u.adminToken) && codigo != "" && u.adminToken == Some(codigo)
  }

  /** The row after `confirmar_codigo` with the stripped `codigo`: on a match
      the token is consumed and the account active; otherwise nothing
      changes. The role, key and flags are never touched. */
  function Confirmar(u: Usuario, codigo: string): (r: Usuario)
    ensures ConfirmaCodigo(u, codigo) ==> r.adminToken == Some("") && r.isActive
    ensures !ConfirmaCodigo(u, codigo) ==> r == u
    ensures r == u.(adminToken := r.adminToken, isActive := r.isActive)
    ensures CamposValidos(u) ==> CamposValidos(r)
  {
    if ConfirmaCodigo(u, codigo) then u.(adminToken := Some(""), isActive := true) else u
  }

  /** `confirmar_codigo` on a POST from the logged-in user `id`; `codigoPost`
      is the raw field (`""` when missing). */
  method ConfirmarCodigo(db: TablaUsuarios, id: nat, codigoPost: string) returns (ok: bool)
    requires db.Valid() && id < |db.filas|
    modifies db
    ensures db.Valid()
    ensures ok <==> ConfirmaCodigo(old(db.filas)[id], Strip(codigoPost))
    ensures db.filas == old(db.filas)[id := Confirmar(old(db.filas)[id], Strip(codigoPost))]
    ensures TodasConLlave(old(db.filas)) ==> TodasConLlave(db.filas)
  {
    var codigo := Strip(codigoPost);
    var u := db.filas[id];
    if !Vacio(u.adminToken) && codigo != "" && u.adminToken == Some(codigo) {
      u := u.(adminToken := Some(""));
      u := u.(isActive := true);
      db.Guardar(id, u);
      ok := true;
    } else {
      ok := false;
    }
    if TodasConLlave(old(db.filas)) {
      ActualizarConservaLlaves(old(db.filas), id, Confirmar(old(db.filas)[id], codigo));
    }
  }

  /** Confirming is not repeatable: the token is gone after the first success. */
  lemma ConfirmarIdempotente(u: Usuario, codigo: string)
    ensures Confirmar(Confirmar(u, codigo), codigo) == Confirmar(u, codigo)
  {
  }

  // ------------------------------------------------------------------
  // ingresar_codigo_admin
  // ------------------------------------------------------------------

  /** The cleaned `codigo` of the admin-code form: stripped, required, at
      most 100 characters and free of NUL; `None` when the form is invalid. */
  function CodigoFormulario(codigoPost: string): (r: Option<string>)
    ensures r.Some? ==>
      r.value == Strip(codigoPost) && r.value != "" && |r.value| <= MAX_CODIGO_FORM && SinNulos(r.value)
    ensures r.None? <==>
      Strip(codigoPost) == "" || |Strip(codigoPost)| > MAX_CODIGO_FORM || !SinNulos(Strip(codigoPost))
  {
    var c := Strip(codigoPost);
    if c == "" || |c| > MAX_CODIGO_FORM || !SinNulos(c) then None else Some(c)
  }

  /** The guard of `ingresar_codigo_admin`: the stored token equals the code. */
  predicate CodigoAdminCoincide(u: Usuario, codigo: string) {
    u.adminToken == Some(codigo)
  }

  /** The row after redeeming `codigo` with the new key `llave`: on a match
      the user becomes an admin with that key and the token is consumed;
      otherwise nothing changes. The staff, superuser and active flags are
      never touched, and a key is never emptied (though it is replaced). */
  function Ascender(u: Usuario, codigo: string, llave: string): (r: Usuario)
    requires EsTokenHex(llave, BYTES_LLAVE)
    ensures CodigoAdminCoincide(u, codigo) ==>
      r.rol == Admin && r.llaveSeguridad == Some(llave) && r.adminToken == Some("") && EsAdmin(r)
    ensures !CodigoAdminCoincide(u, codigo) ==> r == u
    ensures r == u.(rol := r.rol, llaveSeguridad := r.llaveSeguridad, adminToken := r.adminToken)
    ensures !Vacio(u.llaveSeguridad) ==> !Vacio(r.llaveSeguridad)
    ensures LlaveAlDia(u) ==> LlaveAlDia(r)
    ensures CamposValidos(u) ==> CamposValidos(r)
  {
    if CodigoAdminCoincide(u, codigo) then
      u.(rol := Admin, llaveSeguridad := Some(llave), adminToken := Some(""))
    else
      u
  }

  datatype RespuestaIngreso =
    | FormularioIngresoInvalido
    | AhoraAdmin(llave: string)
    | CodigoAdminIncorrecto

  /** `ingresar_codigo_admin` on a POST from the logged-in user `id`. */
  method IngresarCodigoAdmin(db: TablaUsuarios, id: nat, codigoPost: string, llave: string)
    returns (res: RespuestaIngreso)
    requires db.Valid() && id < |db.filas| && EsTokenHex(llave, BYTES_LLAVE)
    modifies db
    ensures db.Valid()
    ensures res.FormularioIngresoInvalido? <==> CodigoFormulario(codigoPost).None?
    ensures res.AhoraAdmin? <==>
      CodigoFormulario(codigoPost).Some? &&
      CodigoAdminCoincide(old(db.filas)[id], CodigoFormulario(codigoPost).value)
    ensures res.AhoraAdmin? ==>
      res.llave == llave &&
      db.filas == old(db.filas)[id := Ascender(old(db.filas)[id], CodigoFormulario(codigoPost).value, llave)]
    ensures !res.AhoraAdmin? ==> db.filas == old(db.filas)
    ensures TodasConLlave(old(db.filas)) ==> TodasConLlave(db.filas)
  {
    var form := CodigoFormulario(codigoPost);
    if form.None? {
      return FormularioIngresoInvalido;
    }
    var codigo := form.value;
    var usuario := db.filas[id];
    if usuario.adminToken == Some(codigo) {
      usuario := usuario.(rol := Admin);
      usuario := usuario.(llaveSeguridad := Some(llave));
      usuario := usuario.(adminToken := Some(""));
      db.Guardar(id, usuario);
      res := AhoraAdmin(llave);
      if TodasConLlave(old(db.filas)) {
        ActualizarConservaLlaves(old(db.filas), id, usuario);
      }
    } else {
      res := CodigoAdminIncorrecto;
    }
  }

  /** A redeemed code cannot be redeemed again: the form never yields the
      empty code that the cleared token would match. */
  lemma AscensoNoRepetible(u: Usuario, codigoPost: string, llave: string)
    requires EsTokenHex(llave, BYTES_LLAVE)
    requires CodigoFormulario(codigoPost).Some?
    requires CodigoAdminCoincide(u, CodigoFormulario(codigoPost).value)
    ensures forall otro :: CodigoFormulario(otro).Some? ==>
      !CodigoAdminCoincide(Ascender(u, CodigoFormulario(codigoPost).value, llave), CodigoFormulario(otro).value)
  {
  }

  /** Confirming the account consumes the same token that redemption checks:
      after a confirmation no code elevates the user. */
  lemma ConfirmarBloqueaAscenso(u: Usuario, codigo: string)
    requires ConfirmaCodigo(u, codigo)
    ensures forall otro :: CodigoFormulario(otro).Some? ==>
      !CodigoAdminCoincide(Confirmar(u, codigo), CodigoFormulario(otro).value)
  {
  }

  // ------------------------------------------------------------------
  // solicitar_codigo_admin
  // ------------------------------------------------------------------

  /** The row after a code request: only the pending token changes. */
  function ConToken(u: Usuario, token: string): (r: Usuario)
    requires EsTokenHex(token, BYTES_TOKEN_ADMIN)
    ensures r == u.(adminToken := r.adminToken) && !Vacio(r.adminToken)
    ensures CodigoAdminCoincide(r, token)
    ensures CamposValidos(u) ==> CamposValidos(r)
    ensures LlaveAlDia(u) ==> LlaveAlDia(r)
  {
    u.(adminToken := Some(token))
  }

  datatype RespuestaSolicitud =
    | FormularioSolicitudInvalido
    | CorreoNoRegistrado
    | CodigoEnviado
      /** `send_mail` raised after the row was saved; the error propagates. */
    | ErrorAlEnviar

  /** `solicitar_codigo_admin` on a POST. `emailValido` is the verdict of the
      e-mail field's validator; `correoPost` is the raw field. */
  method SolicitarCodigoAdmin(db: TablaUsuarios, emailValido: bool, correoPost: string,
                              token: string, correoOk: bool)
    returns (res: RespuestaSolicitud)
    requires db.Valid() && EsTokenHex(token, BYTES_TOKEN_ADMIN)
    modifies db
    ensures db.Valid()
    ensures res.FormularioSolicitudInvalido? <==> !emailValido
    ensures res.CorreoNoRegistrado? <==>
      emailValido && forall i :: 0 <= i < |old(db.filas)| ==> old(db.filas)[i].correo != Strip(correoPost)
    ensures res.FormularioSolicitudInvalido? || res.CorreoNoRegistrado? ==> db.filas == old(db.filas)
    ensures res.CodigoEnviado? || res.ErrorAlEnviar? ==>
      var id := Buscar(old(db.filas), PorCorreo, Strip(correoPost)).value;
      db.filas == old(db.filas)[id := ConToken(old(db.filas)[id], token)]
    ensures res.CodigoEnviado? || res.ErrorAlEnviar? ==> (res.CodigoEnviado? <==> correoOk)
    ensures TodasConLlave(old(db.filas)) ==> TodasConLlave(db.filas)
  {
    if !emailValido {
      return FormularioSolicitudInvalido;
    }
    var correo := Strip(correoPost);
    var encontrado := Buscar(db.filas, PorCorreo, correo);
    if encontrado.None? {
      return CorreoNoRegistrado;
    }
    var id := encontrado.value;
    var usuario := db.filas[id];
    usuario := usuario.(adminToken := Some(token));
    db.Guardar(id, usuario);
    if TodasConLlave(old(db.filas)) {
      ActualizarConservaLlaves(old(db.filas), id, usuario);
    }
    res := if correoOk then CodigoEnviado else ErrorAlEnviar;
  }

  /** The code mailed on request elevates its holder, even when the mail
      itself failed after the save. */
  lemma SolicitudLuegoAscenso(u: Usuario, token: string, llave: string)
    requires EsTokenHex(token, BYTES_TOKEN_ADMIN) && EsTokenHex(llave, BYTES_LLAVE)
    ensures CodigoFormulario(token) == Some(token)
    ensures Ascender(ConToken(u, token), token, llave).rol == Admin
  {
    TokenSobreviveStrip(token, BYTES_TOKEN_ADMIN);
    assert Strip(token) == token && |token| == 8;
    assert CodigoAdminCoincide(ConToken(u, token), token);
  }

  // ------------------------------------------------------------------
  // login
  // ------------------------------------------------------------------

  /** The identifier typed at login, as a username first and as an e-mail
      otherwise; a missing field resolves to nobody. */
  function Resolver(filas: seq<Usuario>, entrada: Option<string>): (r: Option<nat>)
    ensures r.Some? ==> (entrada.Some? && r.value < |filas| &&
      (filas[r.value].username == entrada.value || filas[r.value].correo == entrada.value))
    ensures r.None? <==> (entrada.None? ||
      forall i :: 0 <= i < |filas| ==> filas[i].username != entrada.value && filas[i].correo != entrada.value)
    ensures entrada.Some? && (exists i :: 0 <= i < |filas| && filas[i].username == entrada.value) ==>
      r.Some? && filas[r.value].username == entrada.value
  {
    match entrada
    case None => None
    case Some(x) =>
      var porUsername := Buscar(filas, PorUsername, x);
      if porUsername.Some? then porUsername else Buscar(filas, PorCorreo, x)
  }

  /** `authenticate` succeeds for the resolved row. The password check is an
      oracle over the row and the password; a missing password fails. */
  predicate Autenticado(filas: seq<Usuario>, entrada: Option<string>, password: Option<string>,
                        autentica: (Usuario, string) -> bool) {
    var r := Resolver(filas, entrada);
    r.Some? && password.Some? && autentica(filas[r.value], password.value)
  }

  datatype Destino = Home | AdminDashboard

  /** Where a successful login redirects: by `rol` alone. */
  function DestinoTrasLogin(rol: Rol): (d: Destino)
    ensures d == AdminDashboard <==> rol == Admin
  {
    if rol == Admin then AdminDashboard else Home
  }

  datatype RespuestaLogin =
    | UsuarioOContrasenaIncorrectos
    | Sesion(id: nat, destino: Destino, llaveMostrada: Option<string>)

  /** `login` on a POST. An unknown identifier and a wrong password give the
      same single failure and no session; a successful admin login backfills
      a missing key exactly as the key-sync hook does. */
  method Login(db: TablaUsuarios, entrada: Option<string>, password: Option<string>,
               autentica: (Usuario, string) -> bool, llave: string)
    returns (res: RespuestaLogin)
    requires db.Valid() && EsTokenHex(llave, BYTES_LLAVE)
    modifies db
    ensures db.Valid()
    ensures res.UsuarioOContrasenaIncorrectos? <==> !Autenticado(old(db.filas), entrada, password, autentica)
    ensures res.UsuarioOContrasenaIncorrectos? ==> db.filas == old(db.filas)
    ensures res.Sesion? ==>
      res.id == Resolver(old(db.filas), entrada).value && res.id < |db.filas| &&
      db.filas == old(db.filas)[res.id := RellenarLlave(old(db.filas)[res.id], llave)]
    ensures res.Sesion? ==>
      LlaveAlDia(db.filas[res.id]) && res.destino == DestinoTrasLogin(db.filas[res.id].rol)
    ensures res.Sesion? ==>
      res.llaveMostrada == (if db.filas[res.id] != old(db.filas)[res.id] then Some(llave) else None)
    ensures TodasConLlave(old(db.filas)) ==> TodasConLlave(db.filas)
  {
    var encontrado := Resolver(db.filas, entrada);
    if encontrado.Some? {
      var id := encontrado.value;
      var usuario := db.filas[id];
      if password.Some? && autentica(usuario, password.value) {
        var llaveMostrada: Option<string> := None;
        if usuario.rol == Admin && Vacio(usuario.llaveSeguridad) {
          usuario := usuario.(llaveSeguridad := Some(llave));
          db.Guardar(id, usuario);
          llaveMostrada := Some(llave);
        }
        if TodasConLlave(old(db.filas)) {
          ActualizarConservaLlaves(old(db.filas), id, usuario);
        }
        var destino := if usuario.rol == Admin then AdminDashboard else Home;
        return Sesion(id, destino, llaveMostrada);
      }
    }
    res := UsuarioOContrasenaIncorrectos;
  }

  /** Every user sent to the admin dashboard passes the `es_admin` gate. */
  lemma DashboardPasaGate(u: Usuario)
    requires DestinoTrasLogin(u.rol) == AdminDashboard
    ensures EsAdmin(u)
  {
  }

  /** The converse fails: a `Jugador` with the staff flag is an admin for
      `es_admin` but is sent home, and the key-sync hook gives it no key. */
  lemma StaffJugadorVaAHome(u: Usuario, llave: string)
    requires EsTokenHex(llave, BYTES_LLAVE)
    requires u.rol == Jugador && u.isStaff
    ensures EsAdmin(u) && DestinoTrasLogin(u.rol) == Home
    ensures RellenarLlave(u, llave) == u
  {
  }

  // ------------------------------------------------------------------
  // End-to-end
  // ------------------------------------------------------------------

  /** A user registered without the secret is a `Jugador` without a key;
      redeeming the confirmation token mailed at registration makes it an
      admin with a key and consumes the token. */
  lemma RegistroLuegoAscenso(cfg: Config, username: string, correo: string,
                                                adminCode: string, token: string,
                                                llave0: string, llave: string)
    requires EsTokenHex(token, BYTES_TOKEN_CONFIRMACION)
    requires EsTokenHex(llave0, BYTES_LLAVE) && EsTokenHex(llave, BYTES_LLAVE)
    requires !ConcedeAdmin(cfg, adminCode)
    ensures var u := NuevaCuenta(cfg, username, correo, adminCode, token, llave0);
      u.rol == Jugador && Vacio(u.llaveSeguridad) &&
      CodigoFormulario(token) == Some(token) &&
      var v := Ascender(u, token, llave);
      v.rol == Admin && v.llaveSeguridad == Some(llave) && Vacio(v.adminToken)
  {
    TokenSobreviveStrip(token, BYTES_TOKEN_CONFIRMACION);
  }

  /** Registering with the secret under the corrected configuration yields
      an admin on all three signals with a 16-digit key and a 6-digit token. */
  lemma RegistroConSecreto(username: string, correo: string, adminCode: string,
                                              token: string, llave: string)
    requires EsTokenHex(token, BYTES_TOKEN_CONFIRMACION) && EsTokenHex(llave, BYTES_LLAVE)
    requires Strip(adminCode) == ADMIN_SECRET_CODE
    ensures var u := NuevaCuenta(CONFIG_CORREGIDA, username, correo, adminCode, token, llave);
      u.rol == Admin && u.isStaff && u.isSuperuser &&
      |u.llaveSeguridad.value| == 16 && |u.adminToken.value| == 6
  {
  }
}

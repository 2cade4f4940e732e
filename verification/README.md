# Account and role-elevation flow of the TourExpress game, in Dafny

This project models the part of the game's Django app that changes account
state: the `Usuario` table and the views and middleware that read one row,
assign its fields and save it.

- **Registration** (`register`). A new account is always a `jugador`, whatever
  role the form submitted. The exception is an admin code that, once stripped
  and cut, equals the shared secret: that account becomes an admin with the
  staff and superuser flags and a 16-hex-digit security key. Either way the
  row gets a 6-hex-digit confirmation token (`admin_token`). The row is saved
  before the mail is sent, and a failed mail does not undo the save.
- **Confirmation** (`confirmar_codigo`). If the logged-in user types their
  pending token, the token is cleared and the account is activated.
- **Code request** (`solicitar_codigo_admin`). Given a registered e-mail, the
  view overwrites that account's token with an 8-hex-digit code and mails it.
  An unknown e-mail is reported as "not registered".
- **Redemption** (`ingresar_codigo_admin`). A code equal to the caller's token
  makes the caller an admin, issues a new key and clears the token. The staff
  and superuser flags are not touched.
- **`es_admin`**: superuser OR staff OR `rol == "admin"`.
- **Login**. The identifier is resolved as a username first, then as an
  e-mail. A missing admin key is filled in on login. The redirect depends on
  `rol` alone.
- **Key-sync middleware**. On every authenticated request, an admin without a
  key gets one.

The registration token and the redemption code live in the same column.
`ingresar_codigo_admin` compares against that column, so the confirmation code
mailed at registration also elevates its holder (`Views.RegistroLuegoAscenso`).
Confirming the account first consumes it (`Views.ConfirmarBloqueaAscenso`).

## Modelling choices

- The table is the class `Models.TablaUsuarios`. Its field `filas: seq<Usuario>`
  is indexed by row id. `Valid()` says that `username` and `correo` are unique
  and that both token columns fit their 100 characters.
- Each view is a method that takes the table, does the read-modify-write and
  calls `Guardar` (`save()`) or `Insertar`. A pure function (`NuevaCuenta`,
  `Confirmar`, `Ascender`, `ConToken`, `Middleware.RellenarLlave`) says what
  the saved row is. The lemmas are stated about those functions.
- `admin_token` and `llave_seguridad` are nullable. They are `Option<string>`,
  and Python's falsiness test on them is `Vacio` (`None` or `""`).
- `secrets.token_hex(n)` becomes a parameter constrained by
  `EsTokenHex(s, n)`: `2n` lowercase hex digits.
- `send_mail` becomes a boolean parameter saying whether the mail succeeds.
- `authenticate` becomes a function-typed parameter `(Usuario, string) -> bool`.
  A missing password fails without consulting it.
- `login_required` becomes a precondition: the caller's id is a row of the
  table.
- The framework's form checks are parameters: passwords and username syntax
  (`formularioOk`), and e-mail syntax (`emailValido`). The unique-column
  checks and the length limits from `juego/forms.py` are modelled.
- Every text form field is stripped, limited in length and rejects a NUL
  character, as Django's `CharField` does (`Text.SinNulos`).
- The column defaults of `Amistad` and `Territorio` are the constants
  `ESTADO_AMISTAD_POR_DEFECTO`, `ESTADO_TERRITORIO_POR_DEFECTO` and
  `PUNTOS_POR_DEFECTO` in `Models`.
- `ADMIN_SECRET_CODE` and the 20-character cut form a `Views.Config` value.
  `Views.CONFIG` is the configuration as shipped.
- The invariant "every admin has a key" is `Models.TodasConLlave`. Every
  view and the middleware are proved to preserve it. Login and the middleware
  also establish it for the requesting user.

## Notes on the source

- The docstring of `register` (juego/views.py:54) says that typing
  `ADMIN_SECRET_CODE` grants the admin role. As the code is written this
  cannot happen (see Findings). The model follows the code.
- The docstring of the middleware (juego/middleware.py:6) promises that an
  admin always has a key. Keys are never emptied, and the middleware and login
  never overwrite one. Redemption, however, replaces an existing key with a
  new one (`Views.Ascender`).
- An empty column is sometimes `None` (the key of a new `jugador`) and
  sometimes `""` (a consumed token). The code treats both as false. The model
  keeps the two values apart and uses `Models.Vacio` where the code tests
  falsiness.
- `ingresar_codigo_admin` and `solicitar_codigo_admin` use
  `IngresarCodigoAdminForm` and `SolicitarCodigoAdminForm`. Neither form is
  imported into `juego/views.py`, so as written both views raise `NameError`.
  The model gives the logic these views evidently intend.

## Model

| member | source | states |
|---|---|---|
| `Text.TrimLeft` | juego/views.py:125 | the leading-whitespace half of `str.strip()`: the result is a suffix of the input, everything cut is whitespace, and the result does not start with whitespace |
| `Text.TrimRight` | juego/views.py:125 | the trailing-whitespace half of `str.strip()`: the result is a prefix of the input, everything cut is whitespace, and the result does not end with whitespace |
| `Text.Strip` | juego/views.py:125 | `str.strip()`: the result is a contiguous piece of the input with only whitespace cut off on either side; it neither starts nor ends with whitespace; a string without whitespace is unchanged; only an all-whitespace string strips to empty |
| `Text.StripIdempotente` | juego/views.py:125 | stripping twice equals stripping once |
| `Text.Corte` | juego/views.py:58 | `s[:n]`: a prefix of at most `n` characters, the whole string when it is short enough |
| `Models.TokenCabe` | juego/models.py:17-18 | a 6-, 8- or 16-digit hex token fits the 100-character token columns and is truthy |
| `Models.TablaUsuarios.Insertar` | juego/views.py:85 | saving a new row appends it under the next id; the unique `username` and `correo` stay unique |
| `Models.TablaUsuarios.Guardar` | juego/views.py:131 | saving an existing row replaces that row only, keeping the table valid |
| `Models.ActualizarConservaLlaves` | juego/middleware.py:11-13 | writing a row that satisfies "admin ⇒ key" keeps that invariant for the whole table |
| `Models.InsertarAmistad` | juego/models.py:47 | the `(remitente, destinatario)` constraint refuses exactly a second row for the same ordered pair, and an accepted insert keeps the table unique |
| `Models.AmistadInversaAdmitida` | juego/models.py:47 | the pair is ordered: after a request from `a` to `b` is stored, a request from `b` to `a` is accepted exactly when that reverse pair was not stored before |
| `Middleware.RellenarLlave` | juego/middleware.py:11-12 | afterwards an admin has a key; an existing key is never replaced; a `jugador` is untouched whatever its flags; only the key can change, and only to the new key |
| `Middleware.ProcessRequest` | juego/middleware.py:8-13 | an anonymous request changes nothing; otherwise only the requester's row changes, by `RellenarLlave`; the table-wide key invariant is preserved |
| `Middleware.SincronizarIdempotente` | juego/middleware.py:11-13 | a second run of the hook is a no-op, whatever key it would generate |
| `Middleware.LlaveMonotona` | juego/middleware.py:11 | a non-empty key survives the hook unchanged |
| `Middleware.JugadorConPermisosIntacto` | juego/middleware.py:11 | a `jugador` with staff and superuser set and no key is left as it is |
| `Views.Buscar` | juego/views.py:177 | `objects.get(field=value)`: a row holding the value, `None` exactly when no row does; with unique columns, the only such row |
| `Views.EsAdmin` | juego/views.py:222-224 | `es_admin`: the admin role, the staff flag or the superuser flag each suffice; only a `jugador` with neither flag is refused |
| `Views.CodigoAdmin` | juego/views.py:58 | the admin code is the stripped input cut to the configured length: all of it when it fits, exactly the first `maxCodigoAdmin` characters when it does not; it never starts with whitespace |
| `Views.SecretoLargoNuncaConcede` | juego/views.py:58-67 | a secret longer than the cut can never be matched |
| `Views.AdminInalcanzable` | juego/views.py:36-67 | with the shipped 22-character secret and the 20-character cut, no input grants admin at registration |
| `Views.SecretoConcedeAdmin` | juego/views.py:58-67 | if the secret fits the cut, an input that fits the cut grants admin exactly when it strips to the secret |
| `Views.ConfigCorregidaConcedeAdmin` | juego/views.py:58-67 | with the cut raised to the form's 50 characters, the secret grants admin; under the shipped cut it does not |
| `Views.NuevaCuenta` | juego/views.py:61-79 | the registered row is an admin exactly when the code matches; an admin has staff, superuser and the new key; otherwise no flags and no key; always the new non-empty token, active, key invariant holds |
| `Views.Register` | juego/views.py:56-110 | the form is invalid exactly when a framework check fails, the username or e-mail is taken, or the stripped admin code exceeds 50 characters or holds a NUL; an invalid form changes nothing; a valid one appends `NuevaCuenta` under the next id whether or not the mail succeeds; the key is shown exactly to a new admin; the submitted role is ignored |
| `Views.Confirmar` | juego/views.py:127-131 | on a non-empty matching code the token becomes `""` and the account active; otherwise the row is unchanged; role, key and flags never change |
| `Views.ConfirmarCodigo` | juego/views.py:124-135 | succeeds exactly when the stripped code confirms; only the caller's row changes, by `Confirmar` |
| `Views.ConfirmarIdempotente` | juego/views.py:127-128 | a second confirmation with the same code changes nothing |
| `Views.CodigoFormulario` | juego/forms.py:16 | the redemption form accepts the stripped code exactly when it is non-empty, at most 100 characters and free of NUL |
| `Views.Ascender` | juego/views.py:153-157 | on a match: admin role, the new key, token `""`, passes `es_admin`; on a mismatch the row is unchanged; staff, superuser and active are never touched; a key is never emptied |
| `Views.IngresarCodigoAdmin` | juego/views.py:148-161 | an invalid form or a wrong code changes nothing; a match changes only the caller's row, by `Ascender`, and shows the new key |
| `Views.AscensoNoRepetible` | juego/views.py:153-156 | after a successful redemption no form-valid code matches again |
| `Views.ConfirmarBloqueaAscenso` | juego/views.py:127-128 | after a confirmation no form-valid code elevates the user |
| `Views.ConToken` | juego/views.py:178-180 | a code request changes only the pending token, to the new non-empty code |
| `Views.SolicitarCodigoAdmin` | juego/views.py:172-194 | "not registered" exactly when no row has the e-mail, and then nothing changes; otherwise only that row's token is replaced and saved before the mail, and a failed mail is an error after the save |
| `Views.SolicitudLuegoAscenso` | juego/views.py:178-180 | the code mailed on request passes the form and elevates its holder |
| `Views.Resolver` | juego/views.py:235-241 | the identifier resolves to a row whose username or e-mail it is; to nobody exactly when it is missing or matches neither; to the username's row when one exists |
| `Views.DestinoTrasLogin` | juego/views.py:255-258 | the redirect is the admin dashboard exactly for `rol == admin` |
| `Views.Login` | juego/views.py:230-260 | an unknown identifier and a wrong password give the same failure with no change; a success starts a session for the resolved row, backfills a missing admin key as the middleware does, shows exactly that new key when it was backfilled, and redirects by role |
| `Views.DashboardPasaGate` | juego/views.py:222-224 | everyone redirected to the dashboard passes `es_admin` |
| `Views.StaffJugadorVaAHome` | juego/views.py:222-224 | a staff `jugador` passes `es_admin` but is sent home and is given no key |
| `Views.RegistroLuegoAscenso` | juego/views.py:78-157 | a `jugador` without a key who redeems their registration token becomes an admin with a key, and the token is consumed |
| `Views.RegistroConSecreto` | juego/views.py:67-78 | with the corrected cut, registering with the secret yields an admin with staff and superuser set, a 16-digit key and a 6-digit token |

## Findings

| source | as written | input that shows it | evidently intended | confidence | as-written member | corrected member |
|---|---|---|---|---|---|---|
| juego/views.py:58 | the admin code is cut to 20 characters and then compared with the 22-character `ADMIN_SECRET_CODE` (line 36) | `admin_code = "TU_CODIGO_SECRETO_AQUI"` registers a `jugador` | typing the secret at registration grants admin | high; not executed | `Views.AdminInalcanzable` | `Views.ConfigCorregidaConcedeAdmin` |

`Views.Register` takes the configuration as a parameter. With `Views.CONFIG`
it behaves as written. With `Views.CONFIG_CORREGIDA` the cut is the form's own
50-character limit, and the secret grants admin.

## Left out

- GET requests: every view only renders its form and changes nothing.
- Messages, templates and redirect URLs. They appear only as the datatypes of
  the view responses.
- Logging and the body of the mails. Mail is only "may fail".
- Randomness. Tokens are parameters of the right shape, and their uniqueness
  is not claimed.
- Password hashing, `authenticate`'s own checks (including the one on
  `is_active`) and session handling. They sit behind the password oracle.
- The framework's form validators for passwords, username syntax and e-mail
  syntax. They are boolean parameters.
- Unicode normalisation of usernames and case-insensitive uniqueness checks.
  The unique columns are compared exactly.
- The `NameError` the two admin-code views raise as written. The intended
  logic is modelled instead.
- Concurrent requests on the same row, such as two backfills racing. The model
  is sequential.
- Deleting and editing rows through the CRUD views, including edits that set
  `rol` to admin without a key. So rows are never removed and ids are indices.
- All list, create, update and delete views, rankings and statistics. They
  are ORM wrappers with no account state to model.
- The other tables (`Lugar`, `Mision`, `Articulo`, `Visita`, `Regalo`,
  `RegaloEnviado`, `SalonAmigos`, `CuartoSalon`, `SalonArticulo`) and the
  `__str__` methods.
- `logout`, `home` and `admin_dashboard`. They do not change account state.
- `ADMIN_EMAILS` and `ADMIN_PASSWORDS`. They are never read.

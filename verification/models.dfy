/** The records of the game's database that the account flow touches: the
    `Usuario` row and its table, and the `Amistad` and `Territorio` rows with
    their enumerated states and defaults. */
module Models {
  import opened Text

  /** The `rol` column's choices; the default is `Jugador`. */
  datatype Rol = Admin | Jugador

  const ROL_POR_DEFECTO: Rol := Jugador

  /** One `Usuario` row. `adminToken` and `llaveSeguridad` are nullable text
      columns, hence `Option`; the password hash is not modelled (see
      `Views.Login`, which takes the password check as an oracle). */
  datatype Usuario = Usuario(
    username: string,
    correo: string,
    rol: Rol,
    adminToken: Option<string>,
    llaveSeguridad: Option<string>,
    isStaff: bool,
    isSuperuser: bool,
    isActive: bool)

  /** Python falsiness of a nullable text column: `None` or `""`. */
  predicate Vacio(o: Option<string>) {
    o.None? || o.value == ""
  }

  /** `max_length` of `admin_token` and `llave_seguridad`. */
  const MAX_TOKEN: nat := 100

  predicate CabeEnCampo(o: Option<string>) {
    o.None? || |o.value| <= MAX_TOKEN
  }

  predicate CamposValidos(u: Usuario) {
    CabeEnCampo(u.adminToken) && CabeEnCampo(u.llaveSeguridad)
  }

  /** The invariant the key-sync hook restores: an admin holds a non-empty key. */
  predicate LlaveAlDia(u: Usuario) {
    u.rol == Admin ==> !Vacio(u.llaveSeguridad)
  }

  predicate TodasConLlave(filas: seq<Usuario>) {
    forall i :: 0 <= i < |filas| ==> LlaveAlDia(filas[i])
  }

  /** `username` and `correo` are unique columns. */
  predicate Unicos(filas: seq<Usuario>) {
    forall i, j :: 0 <= i < j < |filas| ==>
      filas[i].username != filas[j].username && filas[i].correo != filas[j].correo
  }

  /** A token written by the views (6, 8 or 16 hex digits) fits its column. */
  lemma TokenCabe(s: string, n: nat)
    requires EsTokenHex(s, n) && n <= 8
    ensures CabeEnCampo(Some(s)) && !Vacio(Some(s)) == (n > 0)
  {
  }

  /** The `Usuario` table. A row's id is its index; rows are never removed
      by the account flow. */
  class TablaUsuarios {
    var filas: seq<Usuario>

    ghost predicate Valid()
      reads this
    {
      Unicos(filas) && forall i :: 0 <= i < |filas| ==> CamposValidos(filas[i])
    }

    constructor ()
      ensures Valid() && filas == []
    {
      filas := [];
    }

    /** `save()` of a new row: it gets the next id. */
    method Insertar(u: Usuario) returns (id: nat)
      requires Valid() && CamposValidos(u)
      requires forall i :: 0 <= i < |filas| ==>
        filas[i].username != u.username && filas[i].correo != u.correo
      modifies this
      ensures Valid()
      ensures id == |old(filas)| && filas == old(filas) + [u]
    {
      id := |filas|;
      filas := filas + [u];
    }

    /** `save()` of an existing row whose unique columns are unchanged. */
    method Guardar(id: nat, u: Usuario)
      requires Valid() && id < |filas| && CamposValidos(u)
      requires u.username == filas[id].username && u.correo == filas[id].correo
      modifies this
      ensures Valid()
      ensures filas == old(filas)[id := u]
    {
      filas := filas[id := u];
    }
  }

  /** An update that keeps the key invariant of the row it writes keeps the
      invariant of the whole table. */
  lemma ActualizarConservaLlaves(filas: seq<Usuario>, id: nat, u: Usuario)
    requires id < |filas| && TodasConLlave(filas) && LlaveAlDia(u)
    ensures TodasConLlave(filas[id := u])
  {
    var nuevas := filas[id := u];
    forall i | 0 <= i < |nuevas|
      ensures LlaveAlDia(nuevas[i])
    {
      if i != id {
        assert nuevas[i] == filas[i];
      }
    }
  }

  // ------------------------------------------------------------------
  // Amistad
  // ------------------------------------------------------------------

  /** `Amistad.estado`'s choices; the default is `Pendiente`. */
  datatype EstadoAmistad = Pendiente | Aceptada | Rechazada

  const ESTADO_AMISTAD_POR_DEFECTO: EstadoAmistad := Pendiente

  /** A friendship request from `remitente` to `destinatario` (user ids); a
      new row starts with `ESTADO_AMISTAD_POR_DEFECTO`. */
  datatype Amistad = Amistad(remitente: nat, destinatario: nat, estado: EstadoAmistad)

  /** `unique_together = ("remitente", "destinatario")`: an ordered pair. */
  predicate AmistadesUnicas(s: seq<Amistad>) {
    forall i, j :: 0 <= i < j < |s| ==>
      s[i].remitente != s[j].remitente || s[i].destinatario != s[j].destinatario
  }

  predicate ParRegistrado(s: seq<Amistad>, remitente: nat, destinatario: nat) {
    exists i :: 0 <= i < |s| && s[i].remitente == remitente && s[i].destinatario == destinatario
  }

  /** Inserting a row into the `Amistad` table: the uniqueness constraint
      refuses a second row for the same ordered pair, and accepting a row
      keeps the table unique. */
  function InsertarAmistad(s: seq<Amistad>, a: Amistad): (r: Option<seq<Amistad>>)
    ensures r.None? <==> ParRegistrado(s, a.remitente, a.destinatario)
    ensures r.Some? ==> r.value == s + [a]
    ensures AmistadesUnicas(s) && r.Some? ==> AmistadesUnicas(r.value)
  {
    if ParRegistrado(s, a.remitente, a.destinatario) then None else Some(s + [a])
  }

  /** The pair is ordered: once `remitente` has asked `destinatario`, a
      request in the opposite direction is still accepted exactly when that
      reverse pair was not registered before. */
  lemma AmistadInversaAdmitida(s: seq<Amistad>, remitente: nat, destinatario: nat,
                               t: seq<Amistad>, estado: EstadoAmistad)
    requires remitente != destinatario
    requires InsertarAmistad(s, Amistad(remitente, destinatario, ESTADO_AMISTAD_POR_DEFECTO)) == Some(t)
    ensures InsertarAmistad(t, Amistad(destinatario, remitente, estado)).Some? <==>
      !ParRegistrado(s, destinatario, remitente)
  {
    assert t == s + [Amistad(remitente, destinatario, ESTADO_AMISTAD_POR_DEFECTO)];
    if ParRegistrado(t, destinatario, remitente) {
      var i :| 0 <= i < |t| && t[i].remitente == destinatario && t[i].destinatario == remitente;
      assert i < |s| && s[i] == t[i];
    }
    if ParRegistrado(s, destinatario, remitente) {
      var i :| 0 <= i < |s| && s[i].remitente == destinatario && s[i].destinatario == remitente;
      assert t[i] == s[i];
    }
  }

  // ------------------------------------------------------------------
  // Territorio
  // ------------------------------------------------------------------

  /** The five ratings of `Territorio.estado`. */
  datatype Calificacion = Nada | Poco | Normal | MeGusta | Increible

  /** A territory owned by the user `propietario`; a new row starts with
      `ESTADO_TERRITORIO_POR_DEFECTO` and `PUNTOS_POR_DEFECTO`. */
  datatype Territorio = Territorio(propietario: nat, nombre: string, estado: Calificacion, puntos: int)

  const ESTADO_TERRITORIO_POR_DEFECTO: Calificacion := Nada

  const PUNTOS_POR_DEFECTO: int := 0
}

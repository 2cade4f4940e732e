/** The per-request key-sync hook (`SincronizarLlaveAdminMiddleware`): before a
    request from a logged-in user is handled, an admin without a security key
    is given one and the row is saved. */
module Middleware {
  import opened Text
  import opened Models

  /** Bytes of randomness in a security key: `token_hex(8)`, 16 hex digits. */
  const BYTES_LLAVE: nat := 8

  /** The lazy key backfill applied to one row, given the freshly generated
      key. Afterwards an admin always has a key; an existing key is never
      replaced; a `Jugador` row is left alone whatever its staff and
      superuser flags say; nothing but the key ever changes. */
  function RellenarLlave(u: Usuario, llave: string): (r: Usuario)
    requires EsTokenHex(llave, BYTES_LLAVE)
    ensures LlaveAlDia(r)
    ensures !Vacio(u.llaveSeguridad) ==> r == u
    ensures u.rol == Jugador ==> r == u
    ensures r == u.(llaveSeguridad := r.llaveSeguridad)
    ensures r != u ==> r.llaveSeguridad == Some(llave)
    ensures CamposValidos(u) ==> CamposValidos(r)
  {
    if u.rol == Admin && Vacio(u.llaveSeguridad) then
      u.(llaveSeguridad := Some(llave))
    else
      u
  }

  /** `process_request`. `sesion` is the id of the authenticated user, if any;
      only that user's row may change. */
  method ProcessRequest(db: TablaUsuarios, sesion: Option<nat>, llave: string)
    requires db.Valid() && EsTokenHex(llave, BYTES_LLAVE)
    requires sesion.Some? ==> sesion.value < |db.filas|
    modifies db
    ensures db.Valid()
    ensures sesion.None? ==> db.filas == old(db.filas)
    ensures sesion.Some? ==>
      db.filas == old(db.filas)[sesion.value := RellenarLlave(old(db.filas)[sesion.value], llave)]
    ensures sesion.Some? ==> LlaveAlDia(db.filas[sesion.value])
    ensures TodasConLlave(old(db.filas)) ==> TodasConLlave(db.filas)
  {
    if sesion.Some? {
      var id := sesion.value;
      var usuario := db.filas[id];
      if usuario.rol == Admin && Vacio(usuario.llaveSeguridad) {
        usuario := usuario.(llaveSeguridad := Some(llave));
        db.Guardar(id, usuario);
      }
      if TodasConLlave(old(db.filas)) {
        ActualizarConservaLlaves(old(db.filas), id, RellenarLlave(old(db.filas)[id], llave));
      }
    }
  }

  /** Running the hook twice, whatever key the second run would generate,
      is running it once. */
  lemma SincronizarIdempotente(u: Usuario, llave1: string, llave2: string)
    requires EsTokenHex(llave1, BYTES_LLAVE) && EsTokenHex(llave2, BYTES_LLAVE)
    ensures RellenarLlave(RellenarLlave(u, llave1), llave2) == RellenarLlave(u, llave1)
  {
  }

  /** Keys only grow: once a row has a key the hook keeps it, so a key is
      never cleared and never replaced. */
  lemma LlaveMonotona(u: Usuario, llave: string)
    requires EsTokenHex(llave, BYTES_LLAVE) && !Vacio(u.llaveSeguridad)
    ensures RellenarLlave(u, llave).llaveSeguridad == u.llaveSeguridad
  {
  }

  /** A `Jugador` with the staff and superuser flags set and no key is not
      touched: the hook looks at `rol` alone. */
  lemma JugadorConPermisosIntacto(u: Usuario, llave: string)
    requires EsTokenHex(llave, BYTES_LLAVE)
    requires u.rol == Jugador && u.isStaff && u.isSuperuser && Vacio(u.llaveSeguridad)
    ensures RellenarLlave(u, llave) == u
  {
  }
}

/** Strings as the account views handle them: Python's `str.strip()`, slicing
    `s[:n]`, and the lowercase hex tokens produced by `secrets.token_hex(n)`. */
module Text {

  datatype Option<+T> = None | Some(value: T)

  /** Python's `str.isspace()` for a single character. */
  predicate EsEspacio(c: char) {
    c == ' ' || ('\t' <= c <= '\r') || ('\U{1c}' <= c <= '\U{1f}')
    || c == '\U{85}' || c == '\U{a0}' || c == '\U{1680}'
    || ('\U{2000}' <= c <= '\U{200a}') || c == '\U{2028}' || c == '\U{2029}'
    || c == '\U{202f}' || c == '\U{205f}' || c == '\U{3000}'
  }

  predicate SinEspacios(s: string) {
    forall k :: 0 <= k < |s| ==> !EsEspacio(s[k])
  }

  /** `s.lstrip()`: drops the leading whitespace and nothing else. */
  function TrimLeft(s: string): (r: string)
    ensures |r| <= |s| && r == s[|s| - |r|..]
    ensures forall k :: 0 <= k < |s| - |r| ==> EsEspacio(s[k])
    ensures r == [] || !EsEspacio(r[0])
  {
    if s != [] && EsEspacio(s[0]) then
      var r := TrimLeft(s[1..]);
      assert forall k :: 1 <= k < |s| - |r| ==> s[k] == s[1..][k - 1];
      r
    else
      s
  }

  /** `s.rstrip()`: drops the trailing whitespace and nothing else. */
  function TrimRight(s: string): (r: string)
    ensures |r| <= |s| && r == s[..|r|]
    ensures forall k :: |r| <= k < |s| ==> EsEspacio(s[k])
    ensures r == [] || !EsEspacio(r[|r| - 1])
  {
    if s != [] && EsEspacio(s[|s| - 1]) then
      var r := TrimRight(s[..|s| - 1]);
      assert forall k :: |r| <= k < |s| - 1 ==> s[k] == s[..|s| - 1][k];
      r
    else
      s
  }

  /** `r` is `s[i..i + |r|]` and everything of `s` around it is whitespace. */
  predicate Recorte(s: string, r: string, i: int) {
    0 <= i <= |s| - |r| && r == s[i..i + |r|] &&
    (forall k :: 0 <= k < i ==> EsEspacio(s[k])) &&
    (forall k :: i + |r| <= k < |s| ==> EsEspacio(s[k]))
  }

  /** `s.strip()`: the result is a contiguous piece of `s` with only whitespace
      cut off on either side; it neither starts nor ends with whitespace, a
      string with no whitespace is returned as it is, and only an
      all-whitespace string strips to the empty one. */
  function Strip(s: string): (r: string)
    ensures |r| <= |s|
    ensures exists i :: Recorte(s, r, i)
    ensures r == [] || (!EsEspacio(r[0]) && !EsEspacio(r[|r| - 1]))
    ensures SinEspacios(s) ==> r == s
    ensures r == [] <==> forall k :: 0 <= k < |s| ==> EsEspacio(s[k])
  {
    StripRecorta(s);
    StripBordes(s);
    StripSinEspacios(s);
    StripVacio(s);
    TrimRight(TrimLeft(s))
  }

  lemma StripRecorta(s: string)
    ensures Recorte(s, TrimRight(TrimLeft(s)), |s| - |TrimLeft(s)|)
  {
    var l := TrimLeft(s);
    var r := TrimRight(l);
    var i := |s| - |l|;
    assert l == s[i..];
    assert r == l[..|r|];
    forall k | i + |r| <= k < |s|
      ensures EsEspacio(s[k])
    {
      assert s[k] == l[k - i];
    }
  }

  lemma StripBordes(s: string)
    ensures var r := TrimRight(TrimLeft(s));
      r == [] || (!EsEspacio(r[0]) && !EsEspacio(r[|r| - 1]))
  {
    var l := TrimLeft(s);
    var r := TrimRight(l);
    if r != [] {
      assert r[0] == l[0];
    }
  }

  lemma StripSinEspacios(s: string)
    ensures SinEspacios(s) ==> TrimRight(TrimLeft(s)) == s
  {
    if SinEspacios(s) && s != [] {
      TrimLeftSinEspacioInicial(s);
      TrimRightSinEspacioFinal(s);
    }
  }

  lemma StripVacio(s: string)
    ensures TrimRight(TrimLeft(s)) == [] <==> forall k :: 0 <= k < |s| ==> EsEspacio(s[k])
  {
    var l := TrimLeft(s);
    assert l != [] ==> l[0] == s[|s| - |l|];
    assert TrimRight(l) == [] <==> l == [];
  }

  /** Stripping twice is stripping once. */
  lemma StripIdempotente(s: string)
    ensures Strip(Strip(s)) == Strip(s)
  {
  }

  lemma TrimLeftSinEspacioInicial(s: string)
    requires s != [] && !EsEspacio(s[0])
    ensures TrimLeft(s) == s
  {
  }

  lemma TrimRightSinEspacioFinal(s: string)
    requires s != [] && !EsEspacio(s[|s| - 1])
    ensures TrimRight(s) == s
  {
  }

  /** Python's slice `s[:n]`: the first `n` characters, or all of `s` when it is shorter. */
  function Corte(s: string, n: nat): (r: string)
    ensures |r| <= n && r <= s
    ensures |s| <= n ==> r == s
    ensures |s| > n ==> |r| == n
  {
    if |s| <= n then s else s[..n]
  }

  /** Django's `ProhibitNullCharactersValidator`, which every `CharField` runs:
      the value holds no NUL character. */
  predicate SinNulos(s: string) {
    forall k :: 0 <= k < |s| ==> s[k] != '\0'
  }

  predicate EsHexMinuscula(c: char) {
    '0' <= c <= '9' || 'a' <= c <= 'f'
  }

  /** What `secrets.token_hex(n)` returns: `2 * n` lowercase hexadecimal digits. */
  predicate EsTokenHex(s: string, n: nat) {
    |s| == 2 * n && forall k :: 0 <= k < |s| ==> EsHexMinuscula(s[k])
  }

  /** A hex token survives `strip()` unchanged and passes the NUL check: no
      hex digit is whitespace or NUL. */
  lemma TokenSobreviveStrip(s: string, n: nat)
    requires EsTokenHex(s, n)
    ensures Strip(s) == s && SinNulos(s)
  {
    forall k | 0 <= k < |s|
      ensures !EsEspacio(s[k]) && s[k] != '\0'
    {
      assert EsHexMinuscula(s[k]);
    }
    assert SinEspacios(s);
  }
}

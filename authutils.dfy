/**
 * The client-side token lookup of `lib/auth-utils.ts`: the cookie string is
 * cut at ';', each piece is trimmed and cut at '=', and the first piece
 * whose name is the wanted cookie gives the URI-decoded value. Only the
 * first two '='-pieces are kept, so a value holding '=' is cut there, and a
 * piece without '=' has the value `undefined`, which decodes as the text
 * "undefined".
 */
module AuthUtils {
  import opened Common
  import opened JsText

  const IdTokenCookie: string := "idToken"
  const AccessTokenCookie: string := "accessToken"
  /** What `decodeURIComponent` throws on a malformed escape. */
  const UriError: string := "URIError: URI malformed"

  /** The name half of a cookie piece. */
  function CookieName(piece: string): string {
    Split(Trim(piece), '=')[0]
  }

  /** The value half of a cookie piece, before decoding. */
  function CookieRawValue(piece: string): string {
    var parts := Split(Trim(piece), '=');
    if |parts| >= 2 then parts[1] else "undefined"
  }

  /** The index of the first piece from `i` on that is named `key`, or the number of pieces when none is. */
  function FirstNamed(pieces: seq<string>, key: string, i: nat): (k: nat)
    requires i <= |pieces|
    ensures i <= k <= |pieces|
    ensures forall j :: i <= j < k ==> CookieName(pieces[j]) != key
    ensures k < |pieces| ==> CookieName(pieces[k]) == key
    decreases |pieces| - i
  {
    if i == |pieces| then i
    else if CookieName(pieces[i]) == key then i
    else FirstNamed(pieces, key, i + 1)
  }

  /**
   * The lookup over the pieces of a cookie string: nothing without a piece
   * named `key`, else the decoded value of the first one, or an error when
   * that value does not decode (`decode` stands for `decodeURIComponent`,
   * `None` for its throw).
   */
  function LookupIn(pieces: seq<string>, key: string, decode: string -> Option<string>): Result<Option<string>> {
    var i := FirstNamed(pieces, key, 0);
    if i == |pieces| then Ok(None)
    else
      var v := decode(CookieRawValue(pieces[i]));
      if v.None? then Err(UriError) else Ok(Some(v.value))
  }

  /** What a getter answers: nothing without a document, else the lookup over the ';'-pieces. */
  function TokenLookup(cookie: Option<string>, key: string, decode: string -> Option<string>): Result<Option<string>> {
    if cookie.None? then Ok(None) else LookupIn(Split(cookie.value, ';'), key, decode)
  }

  /** The `for … of` scan: stops at the first piece named `key`. */
  method FindNamed(pieces: seq<string>, key: string) returns (i: nat)
    ensures i == FirstNamed(pieces, key, 0)
  {
    i := 0;
    while i < |pieces| && CookieName(pieces[i]) != key
      invariant i <= |pieces|
      invariant FirstNamed(pieces, key, i) == FirstNamed(pieces, key, 0)
      decreases |pieces| - i
    {
      i := i + 1;
    }
  }

  method LookupPieces(pieces: seq<string>, key: string, decode: string -> Option<string>)
    returns (r: Result<Option<string>>)
    ensures r == LookupIn(pieces, key, decode)
  {
    var i := FindNamed(pieces, key);
    if i == |pieces| {
      return Ok(None);
    }
    var v := decode(CookieRawValue(pieces[i]));
    if v.None? {
      return Err(UriError);
    }
    return Ok(Some(v.value));
  }

  /**
   * `getIdTokenFromCookies` (key "idToken") and `getAccessTokenFromCookies`
   * (key "accessToken"): the value of the first piece with that name.
   */
  method GetTokenFromCookies(cookie: Option<string>, key: string, decode: string -> Option<string>)
    returns (r: Result<Option<string>>)
    ensures r == TokenLookup(cookie, key, decode)
  {
    if cookie.None? {
      return Ok(None);
    }
    r := LookupPieces(Split(cookie.value, ';'), key, decode);
  }

  /** `isAuthenticated`: an access token is found (a decoding failure propagates). */
  method IsAuthenticated(cookie: Option<string>, decode: string -> Option<string>) returns (r: Result<bool>)
    ensures r.Ok? <==> TokenLookup(cookie, AccessTokenCookie, decode).Ok?
    ensures r.Ok? ==> (r.value <==> TokenLookup(cookie, AccessTokenCookie, decode).value.Some?)
  {
    var token := GetTokenFromCookies(cookie, AccessTokenCookie, decode);
    if token.Err? {
      return Err(token.error);
    }
    r := Ok(token.value.Some?);
  }

  /** Without a document there is no token and the user is not authenticated. */
  lemma NoDocumentNoToken(key: string, decode: string -> Option<string>)
    ensures TokenLookup(None, key, decode) == Ok(None)
  {
  }

  /**
   * A piece `name=v1=v2` (no white space at its ends) has the name `name`
   * and the value `v1`: the value is cut at its first '='.
   */
  lemma {:induction false} ValueCutAtEquals(name: string, v1: string, v2: string)
    requires '=' !in name && '=' !in v1 && '=' !in v2
    requires name != [] && !IsSpace(name[0]) && v2 != [] && !IsSpace(v2[|v2| - 1])
    ensures CookieName(name + "=" + v1 + "=" + v2) == name
    ensures CookieRawValue(name + "=" + v1 + "=" + v2) == v1
  {
    var piece := name + "=" + v1 + "=" + v2;
    assert piece[0] == name[0] && piece[|piece| - 1] == v2[|v2| - 1];
    TrimUnchanged(piece);
    assert Join([v1, v2], '=') == v1 + "=" + v2;
    assert Join([name, v1, v2], '=') == name + "=" + (v1 + "=" + v2);
    assert name + "=" + (v1 + "=" + v2) == piece;
    SplitJoin([name, v1, v2], '=');
  }

  /** A piece `name=value` whose value holds no '=' gives that value back undecoded. */
  lemma {:induction false} ValueOfPlainPiece(name: string, value: string)
    requires '=' !in name && '=' !in value
    requires name != [] && !IsSpace(name[0]) && value != [] && !IsSpace(value[|value| - 1])
    ensures CookieName(name + "=" + value) == name
    ensures CookieRawValue(name + "=" + value) == value
  {
    var piece := name + "=" + value;
    assert piece[0] == name[0] && piece[|piece| - 1] == value[|value| - 1];
    TrimUnchanged(piece);
    assert Join([name, value], '=') == piece;
    SplitJoin([name, value], '=');
  }

  /** A piece without '=' has the value "undefined". */
  lemma {:induction false} PieceWithoutValue(name: string)
    requires '=' !in name && (name == [] || (!IsSpace(name[0]) && !IsSpace(name[|name| - 1])))
    ensures CookieName(name) == name && CookieRawValue(name) == "undefined"
  {
    TrimUnchanged(name);
    SplitNoSep(name, '=');
  }

  /**
   * A cookie header that lists, before `name=value`, only pieces with other
   * names yields the decoded `value`, whatever follows.
   */
  lemma {:induction false} FirstMatchWins(before: seq<string>, name: string, value: string, after: seq<string>, decode: string -> Option<string>)
    requires forall j :: 0 <= j < |before| ==> ';' !in before[j] && CookieName(before[j]) != name
    requires ';' !in name && ';' !in value && '=' !in name && '=' !in value
    requires name != [] && !IsSpace(name[0]) && value != [] && !IsSpace(value[|value| - 1])
    requires forall j :: 0 <= j < |after| ==> ';' !in after[j]
    ensures var v := decode(value);
            TokenLookup(Some(Join(before + [name + "=" + value] + after, ';')), name, decode) ==
              (if v.None? then Err(UriError) else Ok(Some(v.value)))
  {
    var pieces := before + [name + "=" + value] + after;
    assert pieces[|before|] == name + "=" + value;
    forall j | 0 <= j < |pieces| ensures ';' !in pieces[j] {
      if j < |before| {
        assert pieces[j] == before[j];
      } else if j > |before| {
        assert pieces[j] == after[j - |before| - 1];
      }
    }
    SplitJoin(pieces, ';');
    ValueOfPlainPiece(name, value);
    FirstNamedAt(pieces, name, 0, |before|);
  }

  lemma {:induction false} FirstNamedAt(pieces: seq<string>, key: string, i: nat, k: nat)
    requires i <= k < |pieces| && CookieName(pieces[k]) == key
    requires forall j :: i <= j < k ==> CookieName(pieces[j]) != key
    ensures FirstNamed(pieces, key, i) == k
    decreases k - i
  {
    if i < k {
      FirstNamedAt(pieces, key, i + 1, k);
    }
  }
}

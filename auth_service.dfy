/**
 * The authentication service's local side: the `auth_token` cookie slot and the
 * reading of a JSON Web Token's payload (RFC 7519) out of it without checking
 * its signature. The token is split as the JWS Compact Serialization lays it out
 * (section 7.1 of RFC 7515): header, payload and signature separated by '.'.
 */
module AuthService {
  import opened Wrappers
  import opened Js

  /** The payload's claims as `JSON.parse` yields them, with string values. */
  type Claims = map<string, string>

  /** `payload[key]`: `undefined` (None) when the claim is missing. */
  function Claim(p: Claims, key: string): (r: Option<string>)
    ensures r.Some? <==> key in p
  {
    if key in p then Some(p[key]) else None
  }

  /** What `decodeToken` returns. `sub` and `email` are `None` for `undefined`. */
  datatype TokenData = TokenData(sub: Option<string>, email: Option<string>, name: string)

  /** `Cookies.get('auth_token') || null`: an empty cookie reads as no token. */
  function TokenOf(cookie: Option<string>): (r: Option<string>)
    ensures r.Some? <==> Truthy(cookie)
    ensures r.Some? ==> r == cookie
  {
    if Truthy(cookie) then cookie else None
  }

  /** The characters `atob` accepts: the standard base64 alphabet of section 4 of
      RFC 4648, the '=' pad and ASCII whitespace. The URL-safe '-' and '_' of
      section 5 are not among them. */
  predicate IsAtobChar(c: char) {
    || ('A' <= c <= 'Z') || ('a' <= c <= 'z') || ('0' <= c <= '9')
    || c == '+' || c == '/' || c == '='
    || c == ' ' || c == '\t' || c == '\n' || c == '\U{000C}' || c == '\r'
  }

  predicate AtobAlphabet(s: string) {
    forall i :: 0 <= i < |s| ==> IsAtobChar(s[i])
  }

  /** The display name candidates in priority order: `name || displayName || given_name || username`. */
  function FullName(p: Claims): (r: Option<string>)
    ensures Truthy(Claim(p, "name")) ==> r == Claim(p, "name")
    ensures !Truthy(Claim(p, "name")) && Truthy(Claim(p, "displayName")) ==> r == Claim(p, "displayName")
    ensures !Truthy(Claim(p, "name")) && !Truthy(Claim(p, "displayName")) && Truthy(Claim(p, "given_name"))
      ==> r == Claim(p, "given_name")
    ensures !Truthy(Claim(p, "name")) && !Truthy(Claim(p, "displayName")) && !Truthy(Claim(p, "given_name"))
      ==> r == Claim(p, "username")
  {
    Or(Or(Or(Claim(p, "name"), Claim(p, "displayName")), Claim(p, "given_name")), Claim(p, "username"))
  }

  /** The record built from a parsed payload. */
  function FromClaims(p: Claims): (r: TokenData)
    // the name is the first word of the first truthy name claim, or "Usuário"
    ensures Truthy(FullName(p)) ==> r.name == Before(FullName(p).value, ' ')
    ensures !Truthy(FullName(p)) ==> r.name == "Usuário"
    // the subject is the first truthy of sub, userId, id (else id as it is)
    ensures Truthy(Claim(p, "sub")) ==> r.sub == Claim(p, "sub")
    ensures !Truthy(Claim(p, "sub")) && Truthy(Claim(p, "userId")) ==> r.sub == Claim(p, "userId")
    ensures !Truthy(Claim(p, "sub")) && !Truthy(Claim(p, "userId")) ==> r.sub == Claim(p, "id")
    // the email is email, else username, else email as it is
    ensures Truthy(Claim(p, "email")) ==> r.email == Claim(p, "email")
    ensures !Truthy(Claim(p, "email")) && Truthy(Claim(p, "username")) ==> r.email == Claim(p, "username")
    ensures !Truthy(Claim(p, "email")) && !Truthy(Claim(p, "username")) ==> r.email == Claim(p, "email")
  {
    var fullName := FullName(p);
    var firstName := if Truthy(fullName) then SplitFirst(fullName.value, ' '); Split(fullName.value, ' ')[0] else "Usuário";
    TokenData(
      Or(Or(Claim(p, "sub"), Claim(p, "userId")), Claim(p, "id")),
      Or(Or(Claim(p, "email"), Claim(p, "username")), Claim(p, "email")),
      firstName)
  }

  /** `decodeToken` on a given cookie. `parse` stands for `JSON.parse(atob(segment))` on a
      segment that uses only `atob`'s alphabet; `None` is any exception either throws. */
  function DecodeTokenIn(cookie: Option<string>, parse: string -> Option<Claims>): (r: Option<TokenData>)
    // no token, no identity
    ensures !Truthy(cookie) ==> r.None?
    // the token must have exactly three '.'-separated parts with a non-empty middle one
    ensures Truthy(cookie) && (|Split(cookie.value, '.')| != 3 || Split(cookie.value, '.')[1] == []) ==> r.None?
    ensures r.Some? ==> Count(cookie.value, '.') == 2
    // a payload segment outside atob's alphabet (base64url's '-' or '_' included) throws: null
    ensures r.Some? ==> AtobAlphabet(Split(cookie.value, '.')[1])
    // a failing atob or JSON.parse yields null, never an exception
    ensures Truthy(cookie) && |Split(cookie.value, '.')| == 3 && parse(Split(cookie.value, '.')[1]).None? ==> r.None?
    // otherwise the record is read from the claims
    ensures r.Some? ==> r.value == FromClaims(parse(Split(cookie.value, '.')[1]).value)
    // and a well-formed token whose payload decodes always yields that record
    ensures
      (&& Truthy(cookie) && |Split(cookie.value, '.')| == 3 && Split(cookie.value, '.')[1] != []
       && AtobAlphabet(Split(cookie.value, '.')[1]) && parse(Split(cookie.value, '.')[1]).Some?)
      ==> r == Some(FromClaims(parse(Split(cookie.value, '.')[1]).value))
    ensures r.Some? ==> ' ' !in r.value.name
  {
    var token := TokenOf(cookie);
    if token.None? then None
    else
      var parts := Split(token.value, '.');
      if |parts| != 3 || parts[1] == [] then None
      else if !AtobAlphabet(parts[1]) then None
      else match parse(parts[1])
        case None => None
        case Some(p) => Some(FromClaims(p))
  }

  /** A token whose payload segment holds base64url's '-' or '_' never decodes. */
  lemma UrlSafePayloadNeverDecodes(cookie: Option<string>, parse: string -> Option<Claims>, i: nat)
    requires Truthy(cookie)
    requires |Split(cookie.value, '.')| == 3
    requires i < |Split(cookie.value, '.')[1]|
    requires Split(cookie.value, '.')[1][i] in {'-', '_'}
    ensures DecodeTokenIn(cookie, parse).None?
  {
    assert !IsAtobChar(Split(cookie.value, '.')[1][i]);
  }

  /** The `auth_token` cookie. Expiry, path, SameSite and Secure attributes are not modelled. */
  class TokenStore {
    var cookie: Option<string>

    constructor (cookie: Option<string>)
      ensures this.cookie == cookie
    {
      this.cookie := cookie;
    }

    /** `saveToken(token)`. */
    method SaveToken(token: string)
      modifies this
      ensures cookie == Some(token)
      ensures token != [] ==> GetToken() == Some(token)
      ensures token == [] ==> !IsAuthenticated()
    {
      cookie := Some(token);
    }

    /** `getToken()`. */
    function GetToken(): (r: Option<string>)
      reads this
      ensures r.None? <==> (cookie.None? || cookie.value == [])
      ensures r.Some? ==> r == cookie
    {
      TokenOf(cookie)
    }

    /** `removeToken()`. */
    method RemoveToken()
      modifies this
      ensures cookie.None? && !IsAuthenticated() && GetToken().None?
    {
      cookie := None;
    }

    /** `isAuthenticated()`: a non-empty token is stored. It says nothing about validity. */
    function IsAuthenticated(): (b: bool)
      reads this
      ensures b <==> Truthy(cookie)
    {
      GetToken().Some?
    }

    /** `decodeToken()`: reads the cookie and never writes it. */
    function DecodeToken(parse: string -> Option<Claims>): (r: Option<TokenData>)
      reads this
      ensures !IsAuthenticated() ==> r.None?
      ensures r == DecodeTokenIn(cookie, parse)
    {
      DecodeTokenIn(cookie, parse)
    }
  }
}

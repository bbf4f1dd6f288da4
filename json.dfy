/** `JSON.stringify` for the two objects the storefront writes to
    localStorage: a signed-in user and a pending registration form. Strings
    are quoted as ECMAScript's QuoteJSONString does; object keys appear in
    declaration order and `undefined` members are omitted. */
module Json {
  import opened Wrappers
  import opened Text
  import opened Types

  function HexDigit(n: nat): char
    requires n < 16
  {
    if n < 10 then DigitChar(n) else ('a' as int + (n - 10)) as char
  }

  /** The JSON text of one character inside a string literal. */
  function EscapeChar(c: char): string {
    var n := c as int;
    if c == '"' then "\\\""
    else if c == '\\' then "\\\\"
    else if n == 0x08 then "\\b"
    else if n == 0x09 then "\\t"
    else if n == 0x0A then "\\n"
    else if n == 0x0C then "\\f"
    else if n == 0x0D then "\\r"
    else if n < 0x20 then "\\u00" + [HexDigit(n / 16), HexDigit(n % 16)]
    else [c]
  }

  function EscapeAll(s: string): string {
    if s == [] then [] else EscapeChar(s[0]) + EscapeAll(s[1..])
  }

  /** `JSON.stringify(s)` for a string `s`. */
  function Quote(s: string): (r: string)
    ensures |r| >= 2 && r[0] == '"' && r[|r| - 1] == '"'
  {
    "\"" + EscapeAll(s) + "\""
  }

  /** `"key":value`. The keys written here are plain identifiers, which
      need no escapes. */
  function Member(key: string, valueText: string): string {
    "\"" + key + "\":" + valueText
  }

  function JoinMembers(members: seq<string>): string {
    if members == [] then ""
    else if |members| == 1 then members[0]
    else members[0] + "," + JoinMembers(members[1..])
  }

  /** An object literal: the text starts with `{` and ends with `}`. */
  function Object(members: seq<string>): (r: string)
    ensures |r| >= 2 && r[0] == '{' && r[|r| - 1] == '}'
  {
    "{" + JoinMembers(members) + "}"
  }

  /** The members of an object, given as keys with their values' JSON
      texts; a member whose value is `undefined` (`None`) is left out. */
  function Members(fields: seq<(string, Option<string>)>): seq<string> {
    if fields == [] then []
    else
      (if fields[0].1.Some? then [Member(fields[0].0, fields[0].1.value)] else [])
      + Members(fields[1..])
  }

  /** The JSON text of a string that may be `undefined`. */
  function QuoteOption(value: Option<string>): Option<string> {
    if value.Some? then Some(Quote(value.value)) else None
  }

  /** The fields of a user, in declaration order. */
  function UserFields(u: User): seq<(string, Option<string>)> {
    [ ("id", Some(IntText(u.id))),
      ("name", Some(Quote(u.name))),
      ("email", Some(Quote(u.email))),
      ("role", Some(Quote(RoleText(u.role)))),
      ("shipping_name", QuoteOption(u.shippingName)),
      ("shipping_mobile", QuoteOption(u.shippingMobile)),
      ("shipping_line1", QuoteOption(u.shippingLine1)),
      ("shipping_line2", QuoteOption(u.shippingLine2)),
      ("shipping_city", QuoteOption(u.shippingCity)),
      ("shipping_state", QuoteOption(u.shippingState)),
      ("shipping_postal_code", QuoteOption(u.shippingPostalCode)),
      ("shipping_country", QuoteOption(u.shippingCountry)) ]
  }

  /** `JSON.stringify(user)` */
  function UserJson(u: User): string {
    Object(Members(UserFields(u)))
  }

  /** `JSON.stringify({name, email, password})` */
  function RegistrationJson(name: string, email: string, password: string): string {
    Object([Member("name", Quote(name)), Member("email", Quote(email)), Member("password", Quote(password))])
  }

  /** The texts written for a user or a registration form are object
      literals: non-empty, and never the string "undefined" that the session
      restore refuses. */
  lemma StoredTextsAreObjects(u: User, name: string, email: string, password: string)
    ensures UserJson(u) != "" && UserJson(u) != "undefined" && UserJson(u)[0] == '{'
    ensures RegistrationJson(name, email, password) != "" && RegistrationJson(name, email, password)[0] == '{'
  {
    assert "undefined"[0] == 'u';
  }
}

/** Values shared by the backend and the frontend of the issue tracker: optional values,
    JSON values as Express and Redux see them, ASCII case mapping, the space split that
    the authentication middleware performs on a header, JavaScript's `Number`/`String`
    on identifiers, the `UserRole` enum and the message strings of the backend. */
module Common {

  datatype Option<T> = None | Some(value: T)

  // ------------------------------------------------------------------------------------
  // JSON values
  // ------------------------------------------------------------------------------------

  /** A JSON value. `JOpaque` stands for a value produced by a library (an error object
      thrown by the database client, the text of a password hash) whose contents are not
      part of this model. Object fields are kept in insertion order. */
  datatype Json =
    | JNull
    | JBool(b: bool)
    | JNum(n: int)
    | JStr(s: string)
    | JArr(items: seq<Json>)
    | JObj(fields: seq<(string, Json)>)
    | JOpaque

  /** The value of `key` among `fields`; when a key repeats, the last one wins, as in
      `JSON.parse`. `None` is JavaScript's `undefined`. */
  function Lookup(fields: seq<(string, Json)>, key: string): (r: Option<Json>)
    ensures r.None? <==> forall i | 0 <= i < |fields| :: fields[i].0 != key
    ensures r.Some? ==> exists i | 0 <= i < |fields| :: fields[i] == (key, r.value)
  {
    if |fields| == 0 then None
    else if fields[|fields| - 1].0 == key then Some(fields[|fields| - 1].1)
    else Lookup(fields[..|fields| - 1], key)
  }

  /** Property access `value[key]` on a parsed request body or query. */
  function Get(j: Json, key: string): (r: Option<Json>)
    ensures r.Some? ==> j.JObj?
  {
    if j.JObj? then Lookup(j.fields, key) else None
  }

  /** JavaScript truthiness of a possibly missing value: `undefined`, `null`, `false`,
      `0` and `""` are falsy. */
  predicate Truthy(v: Option<Json>) {
    match v
    case None => false
    case Some(j) =>
      match j
      case JNull => false
      case JBool(b) => b
      case JNum(n) => n != 0
      case JStr(s) => s != ""
      case _ => true
  }

  /** The object `res.json` sends for an object literal: `JSON.stringify` drops every
      property whose value is `undefined`. */
  function Stringify(fields: seq<(string, Option<Json>)>): (j: Json)
    ensures j.JObj? && |j.fields| <= |fields|
  {
    if |fields| == 0 then JObj([])
    else
      var rest := Stringify(fields[1..]);
      match fields[0].1
      case None => rest
      case Some(v) => JObj([(fields[0].0, v)] + rest.fields)
  }

  lemma {:induction false} StringifyLookup(fields: seq<(string, Option<Json>)>, key: string)
    requires forall i, j | 0 <= i < j < |fields| :: fields[i].0 != fields[j].0
    requires exists i | 0 <= i < |fields| :: fields[i].0 == key
    ensures forall i | 0 <= i < |fields| && fields[i].0 == key :: Get(Stringify(fields), key) == fields[i].1
  {
    var rest := Stringify(fields[1..]);
    if fields[0].0 == key {
      StringifyOmits(fields[1..], key);
      if fields[0].1.Some? {
        LookupOnlyFirst((key, fields[0].1.value), rest.fields);
      }
    } else {
      StringifyLookup(fields[1..], key);
      if fields[0].1.Some? {
        LookupPrefixed((fields[0].0, fields[0].1.value), rest.fields, key);
      }
    }
  }

  /** A key that none of `fields` carries is absent from their serialisation. */
  lemma {:induction false} StringifyOmits(fields: seq<(string, Option<Json>)>, key: string)
    requires forall i | 0 <= i < |fields| :: fields[i].0 != key
    ensures Get(Stringify(fields), key).None?
  {
    if |fields| > 0 {
      StringifyOmits(fields[1..], key);
      var rest := Stringify(fields[1..]);
      if fields[0].1.Some? {
        LookupPrefixed((fields[0].0, fields[0].1.value), rest.fields, key);
      }
    }
  }

  /** A field whose key the rest does not carry is found wherever it stands. */
  lemma {:induction false} LookupOnlyFirst(f: (string, Json), fields: seq<(string, Json)>)
    requires forall i | 0 <= i < |fields| :: fields[i].0 != f.0
    ensures Lookup([f] + fields, f.0) == Some(f.1)
  {
    var all := [f] + fields;
    if |fields| == 0 {
      assert all == [f];
    } else {
      var init := fields[..|fields| - 1];
      assert all[|all| - 1] == fields[|fields| - 1];
      assert all[..|all| - 1] == [f] + init;
      assert Lookup(all, f.0) == Lookup([f] + init, f.0);
      LookupOnlyFirst(f, init);
    }
  }

  /** Putting a field with another key in front of an object does not change a lookup. */
  lemma LookupPrefixed(f: (string, Json), fields: seq<(string, Json)>, key: string)
    requires f.0 != key
    ensures Lookup([f] + fields, key) == Lookup(fields, key)
  {
    if |fields| > 0 {
      assert ([f] + fields)[..|fields|] == [f] + fields[..|fields| - 1];
      LookupPrefixed(f, fields[..|fields| - 1], key);
    }
  }

  // ------------------------------------------------------------------------------------
  // Strings
  // ------------------------------------------------------------------------------------

  function UpperChar(c: char): char {
    if 'a' <= c <= 'z' then (c as int - 32) as char else c
  }

  function LowerChar(c: char): char {
    if 'A' <= c <= 'Z' then (c as int + 32) as char else c
  }

  /** `s.toUpperCase()` on the ASCII letters. */
  function ToUpper(s: string): (r: string)
    ensures |r| == |s| && forall i | 0 <= i < |s| :: r[i] == UpperChar(s[i])
  {
    seq(|s|, i requires 0 <= i < |s| => UpperChar(s[i]))
  }

  /** `s.toLowerCase()` on the ASCII letters. */
  function ToLower(s: string): (r: string)
    ensures |r| == |s| && forall i | 0 <= i < |s| :: r[i] == LowerChar(s[i])
  {
    seq(|s|, i requires 0 <= i < |s| => LowerChar(s[i]))
  }

  /** The UTF-16 code units of one character: a character above U+FFFF is a surrogate
      pair (section 2.5 of RFC 2781). */
  function Utf16Units(c: char): nat {
    if c as int > 0xFFFF then 2 else 1
  }

  /** `s.length` in JavaScript, which counts UTF-16 code units, not characters. */
  function Utf16Length(s: string): (n: nat)
    ensures |s| <= n <= 2 * |s|
    ensures n == 0 <==> s == ""
  {
    if |s| == 0 then 0 else Utf16Length(s[..|s| - 1]) + Utf16Units(s[|s| - 1])
  }

  /** On characters of the Basic Multilingual Plane `.length` is the number of
      characters. */
  lemma {:induction false} Utf16LengthBmp(s: string)
    requires forall k | 0 <= k < |s| :: s[k] as int <= 0xFFFF
    ensures Utf16Length(s) == |s|
  {
    if |s| > 0 {
      Utf16LengthBmp(s[..|s| - 1]);
    }
  }

  /** A character outside the Basic Multilingual Plane counts twice: `"\u{1F600}a".length`
      is 3. */
  lemma Utf16LengthAstral()
    ensures Utf16Length("\U{1F600}a") == 3
  {
    assert "\U{1F600}a"[..1] == "\U{1F600}";
    assert "\U{1F600}"[..0] == "";
  }

  /** The fields joined back with `sep` between them: `fields.join(sep)`. */
  function Join(fields: seq<string>, sep: char): string
    requires |fields| >= 1
  {
    if |fields| == 1 then fields[0] else fields[0] + [sep] + Join(fields[1..], sep)
  }

  /** `s.split(sep)` for a one-character separator: the unique list of separator-free
      fields that joins back to `s` (two adjacent separators give an empty field). */
  function Split(s: string, sep: char): (fields: seq<string>)
    ensures |fields| >= 1
    ensures forall k | 0 <= k < |fields| :: sep !in fields[k]
    ensures Join(fields, sep) == s
  {
    if |s| == 0 then [""]
    else
      var rest := Split(s[1..], sep);
      if s[0] == sep then
        [""] + rest
      else
        assert Join(rest, sep) == rest[0] + Join(rest, sep)[|rest[0]|..] by {
          if |rest| > 1 { assert Join(rest, sep) == rest[0] + ([sep] + Join(rest[1..], sep)); }
        }
        [[s[0]] + rest[0]] + rest[1..]
  }

  /** A string without the separator is a single field. */
  lemma {:induction false} SplitNoSeparator(s: string, sep: char)
    requires sep !in s
    ensures Split(s, sep) == [s]
  {
  }

  /** A separator-free word followed by the separator is split off as the first field. */
  lemma {:induction false} SplitAfterWord(w: string, rest: string, sep: char)
    requires sep !in w
    ensures Split(w + [sep] + rest, sep) == [w] + Split(rest, sep)
  {
    if |w| == 0 {
      assert w + [sep] + rest == [sep] + rest;
      assert ([sep] + rest)[1..] == rest;
    } else {
      assert (w + [sep] + rest)[1..] == w[1..] + [sep] + rest;
      SplitAfterWord(w[1..], rest, sep);
      assert [w[0]] + w[1..] == w;
    }
  }

  // ------------------------------------------------------------------------------------
  // Decimal numbers: `String(id)` and `Number(s)` on identifiers
  // ------------------------------------------------------------------------------------

  predicate IsDigit(c: char) { '0' <= c <= '9' }

  predicate AllDigits(s: string) { forall k | 0 <= k < |s| :: IsDigit(s[k]) }

  function DigitValue(c: char): nat
    requires IsDigit(c)
  {
    c as int - '0' as int
  }

  function DigitChar(d: nat): (c: char)
    requires d < 10
    ensures IsDigit(c) && DigitValue(c) == d
  {
    ('0' as int + d) as char
  }

  /** The value of a string of decimal digits, most significant first. */
  function DecimalValue(s: string): nat
    requires AllDigits(s)
  {
    if |s| == 0 then 0 else DecimalValue(s[..|s| - 1]) * 10 + DigitValue(s[|s| - 1])
  }

  /** `String(n)` for a non-negative integer: its decimal digits, no leading zero. */
  function NatToString(n: nat): (s: string)
    ensures |s| >= 1 && AllDigits(s)
    ensures s[0] == '0' ==> s == "0"
  {
    if n < 10 then [DigitChar(n)] else NatToString(n / 10) + [DigitChar(n % 10)]
  }

  /** `Number(s)` on the strings it meets here: the empty string is `0`, a string of
      decimal digits is its value, anything else is `NaN` (`None`). */
  function JsNumber(s: string): (r: Option<nat>)
    ensures r.Some? <==> AllDigits(s)
  {
    if AllDigits(s) then Some(DecimalValue(s)) else None
  }

  /** `Number(String(n)) === n`: a user id survives the trip through a token claim. */
  lemma {:induction false} NumberOfString(n: nat)
    ensures JsNumber(NatToString(n)) == Some(n)
  {
    var s := NatToString(n);
    if n >= 10 {
      NumberOfString(n / 10);
      var prefix := NatToString(n / 10);
      assert s == prefix + [DigitChar(n % 10)];
      assert s[..|s| - 1] == prefix;
      assert DecimalValue(s) == DecimalValue(prefix) * 10 + n % 10;
    }
  }

  // ------------------------------------------------------------------------------------
  // Roles
  // ------------------------------------------------------------------------------------

  /** The `UserRole` enum of the backend: keys USER, ADMIN, SUPER_ADMIN. */
  datatype Role = USER | ADMIN | SUPER_ADMIN

  /** The string value of an enum member, as stored in a user record and carried in a
      token claim. */
  function RoleValue(r: Role): string {
    match r
    case USER => "user"
    case ADMIN => "admin"
    case SUPER_ADMIN => "super_admin"
  }

  /** The name of an enum member. */
  function RoleKey(r: Role): string {
    match r
    case USER => "USER"
    case ADMIN => "ADMIN"
    case SUPER_ADMIN => "SUPER_ADMIN"
  }

  /** Indexing the enum object, `UserRole[key]`: no member when `key` is not a key. */
  function RoleByKey(key: string): (r: Option<Role>)
    ensures r.Some? ==> RoleKey(r.value) == key
    ensures r.None? <==> forall ro: Role :: RoleKey(ro) != key
  {
    if key == "USER" then Some(USER)
    else if key == "ADMIN" then Some(ADMIN)
    else if key == "SUPER_ADMIN" then Some(SUPER_ADMIN)
    else None
  }

  /** Every value of the enum, in declaration order: the allow-list of the PUT and
      DELETE issue routes. */
  const AllRoleValues: seq<string> := [RoleValue(USER), RoleValue(ADMIN), RoleValue(SUPER_ADMIN)]

  // ------------------------------------------------------------------------------------
  // Message strings of the backend
  // ------------------------------------------------------------------------------------

  const UnknownErrorMessage := "An unexpected error occurred"
  const UserAlreadyExistsMessage := "User already exists"
  const UserNotFoundMessage := "User not found"
  const InvalidCredentialsMessage := "Invalid email or password"
  const UserRegisteredMessage := "User registered successfully"
  const LoginSuccessMessage := "Login successful"
  const TokenMissingMessage := "Access token missing"
  const TokenInvalidMessage := "Invalid or expired token"
  const IssueCreatedMessage := "Issue created successfully"
  const IssueUpdatedMessage := "Issue updated successfully"
  const IssueDeletedMessage := "Issue deleted successfully"
  const IssueNotFoundMessage := "Issue not found"
}

/**
 * The libpq connection string the service builds (server/src/server-config.cpp) and how libpq reads
 * it back: section 34.1.1.1 of the PostgreSQL 16 documentation, Keyword/Value Connection Strings.
 */
module ConnectionString {
  import opened Wrappers
  import opened Sequences
  import opened Decimal
  import opened Storage

  // Building.

  function EscapeChar(c: char): string {
    if c == '\\' || c == '\'' then ['\\', c] else [c]
  }

  function EscapeChars(value: string): string {
    if value == [] then [] else EscapeChar(value[0]) + EscapeChars(value[1..])
  }

  function Escape(value: string): string {
    "'" + (EscapeChars(value) + "'")
  }

  lemma {:induction false} EscapeCharsAppend(value: string, c: char)
    ensures EscapeChars(value + [c]) == EscapeChars(value) + EscapeChar(c)
  {
    if value == [] {
      assert value + [c] == [c];
    } else {
      assert (value + [c])[1..] == value[1..] + [c];
      EscapeCharsAppend(value[1..], c);
    }
  }

  /** Escaping goes character by character: a backslash before each quote and backslash, nothing else. */
  lemma {:induction false} EscapesOnlyQuotesAndBackslashes(a: string, c: char, b: string)
    ensures EscapeChars("") == ""
    ensures EscapeChars(a + [c] + b) == EscapeChars(a) + (if c == '\'' then "\\'" else if c == '\\' then "\\\\" else [c]) + EscapeChars(b)
    decreases |b|
  {
    if b == [] {
      assert a + [c] + b == a + [c];
      EscapeCharsAppend(a, c);
    } else {
      var front, last := b[..|b| - 1], b[|b| - 1];
      assert a + [c] + b == (a + [c] + front) + [last] && b == front + [last];
      EscapesOnlyQuotesAndBackslashes(a, c, front);
      EscapeCharsAppend(a + [c] + front, last);
      EscapeCharsAppend(front, last);
    }
  }

  /** `libpq_escape_value`. */
  method EscapeValue(value: string) returns (escaped: string)
    ensures escaped == Escape(value)
  {
    escaped := "'";
    var i := 0;
    while i < |value|
      invariant i <= |value|
      invariant escaped == "'" + EscapeChars(value[..i])
    {
      var ch := value[i];
      EscapeCharsAppend(value[..i], ch);
      assert value[..i + 1] == value[..i] + [ch];
      if ch == '\\' || ch == '\'' {
        escaped := escaped + ['\\'];
      }
      escaped := escaped + [ch];
      i := i + 1;
    }
    assert value[..i] == value;
    escaped := escaped + "'";
  }

  datatype Database = Database(host: string, port: nat, name: string, user: string, password: string)

  /** One quoted parameter and what comes after it. */
  function Setting(name: string, value: string, rest: string): string {
    name + "=" + (Escape(value) + rest)
  }

  function PasswordPart(d: Database): string {
    if d.password == "" then "" else " " + Setting("password", d.password, "")
  }

  function UserPart(d: Database): string {
    " " + Setting("user", d.user, PasswordPart(d))
  }

  function NamePart(d: Database): string {
    " " + Setting("dbname", d.name, UserPart(d))
  }

  function PortPart(d: Database): string {
    " " + ("port" + "=" + (ToString(d.port) + NamePart(d)))
  }

  /** `host='...' port=... dbname='...' user='...'` and, when there is one, ` password='...'`. */
  function Build(d: Database): string {
    Setting("host", d.host, PortPart(d))
  }

  // Reading, as libpq does.

  datatype ConninfoError = MissingEquals | UnterminatedQuote

  type Settings = seq<(string, string)>

  /** Length of a parameter name: up to an equals sign or a blank. */
  function NameLength(s: string): (n: nat)
    ensures n <= |s|
  {
    if s == [] || s[0] == '=' || IsSpace(s[0]) then 0 else 1 + NameLength(s[1..])
  }

  /** The value after an opening quote, and what follows the closing one. */
  function ReadQuoted(s: string): (r: Option<(string, string)>)
    ensures r.Some? ==> |r.value.1| < |s|
  {
    if s == [] then None
    else if s[0] == '\'' then Some(("", s[1..]))
    else
      var escaped := s[0] == '\\';
      if escaped && |s| == 1 then None
      else
        var c := if escaped then s[1] else s[0];
        var r := ReadQuoted(if escaped then s[2..] else s[1..]);
        if r.None? then None else Some(([c] + r.value.0, r.value.1))
  }

  function ReadUnquoted(s: string): (r: (string, string))
    ensures |r.1| <= |s|
  {
    if s == [] then ("", "")
    else if IsSpace(s[0]) then ("", s[1..])
    else
      var escaped := s[0] == '\\';
      if escaped && |s| == 1 then ("", "")
      else
        var c := if escaped then s[1] else s[0];
        var (value, rest) := ReadUnquoted(if escaped then s[2..] else s[1..]);
        ([c] + value, rest)
  }

  function ReadValue(s: string): (r: Option<(string, string)>)
    ensures r.Some? ==> |r.value.1| <= |s|
  {
    if s != [] && s[0] == '\'' then ReadQuoted(s[1..]) else Some(ReadUnquoted(s))
  }

  function Cons(setting: (string, string), rest: Result<Settings, ConninfoError>): Result<Settings, ConninfoError> {
    match rest
    case Err(e) => Err(e)
    case Ok(settings) => Ok([setting] + settings)
  }

  function Parse(s: string): Result<Settings, ConninfoError>
    decreases |s|
  {
    var t := SkipSpaces(s);
    if t == [] then Ok([])
    else
      var n := NameLength(t);
      var u := SkipSpaces(t[n..]);
      if u == [] || u[0] != '=' then Err(MissingEquals)
      else
        var value := ReadValue(SkipSpaces(u[1..]));
        if value.None? then Err(UnterminatedQuote) else Cons((t[..n], value.value.0), Parse(value.value.1))
  }

  // Round trip.

  lemma {:induction false} ReadQuotedEscaped(value: string, rest: string)
    ensures ReadQuoted(EscapeChars(value) + "'" + rest) == Some((value, rest))
  {
    var s := EscapeChars(value) + "'" + rest;
    if value == [] {
      assert s == "'" + rest;
      assert s[1..] == rest;
    } else {
      var head := EscapeChar(value[0]);
      assert s == head + (EscapeChars(value[1..]) + "'" + rest);
      assert s[|head|..] == EscapeChars(value[1..]) + "'" + rest;
      ReadQuotedEscaped(value[1..], rest);
      assert value == [value[0]] + value[1..];
    }
  }

  lemma {:induction false} ReadQuotedUnterminated(value: string)
    ensures ReadQuoted(EscapeChars(value)) == None
  {
    if value != [] {
      var s, head := EscapeChars(value), EscapeChar(value[0]);
      assert s == head + EscapeChars(value[1..]);
      assert s[|head|..] == EscapeChars(value[1..]);
      ReadQuotedUnterminated(value[1..]);
    }
  }

  lemma {:induction false} CStringOfAppend(a: string, b: string)
    ensures CString(a + b) == if '\0' in a then CString(a) else a + CString(b)
  {
    if a == [] {
      assert a + b == b;
    } else if a[0] != '\0' {
      assert (a + b)[1..] == a[1..] + b;
      CStringOfAppend(a[1..], b);
      assert a == [a[0]] + a[1..];
    }
  }

  lemma {:induction false} CStringOfEscaped(value: string)
    ensures CString(EscapeChars(value)) == EscapeChars(CString(value))
    ensures '\0' in EscapeChars(value) <==> '\0' in value
  {
    if value != [] {
      var head, tail := EscapeChar(value[0]), EscapeChars(value[1..]);
      CStringOfAppend(head, tail);
      CStringOfEscaped(value[1..]);
      if value[0] == '\0' {
        assert head == ['\0'] && CString(head) == [];
      } else {
        assert '\0' !in head;
        EscapeCharsCons(value[0], CString(value[1..]));
      }
      NulInCons(value);
    }
  }

  lemma EscapeCharsCons(c: char, rest: string)
    ensures EscapeChars([c] + rest) == EscapeChar(c) + EscapeChars(rest)
  {
    assert ([c] + rest)[1..] == rest;
  }

  lemma NulInCons(value: string)
    requires value != []
    ensures '\0' in value <==> value[0] == '\0' || '\0' in value[1..]
  {
    assert value == [value[0]] + value[1..];
  }

  /** A parameter name as the service writes it. */
  predicate Plain(name: string) {
    name != [] && forall i | 0 <= i < |name| :: name[i] != '=' && name[i] != '\0' && !IsSpace(name[i])
  }

  lemma {:induction false} NameLengthOfPlain(name: string, rest: string)
    requires forall i | 0 <= i < |name| :: name[i] != '=' && !IsSpace(name[i])
    ensures NameLength(name + "=" + rest) == |name|
  {
    if name != [] {
      assert (name + "=" + rest)[1..] == name[1..] + "=" + rest;
      NameLengthOfPlain(name[1..], rest);
    }
  }

  /** One parameter off the front of a connection string. */
  lemma ParseStep(name: string, text: string)
    requires Plain(name) && (text == [] || !IsSpace(text[0]))
    ensures Parse(name + "=" + text) ==
            if ReadValue(text).None? then Err(UnterminatedQuote)
            else Cons((name, ReadValue(text).value.0), Parse(ReadValue(text).value.1))
  {
    var s := name + "=" + text;
    NameLengthOfPlain(name, text);
    assert SkipSpaces(s) == s;
    assert s[..|name|] == name && s[|name|..] == "=" + text;
    assert ("=" + text)[1..] == text;
    assert SkipSpaces(text) == text;
  }

  lemma ParseLeadingSpace(s: string)
    ensures Parse(" " + s) == Parse(s)
  {
    assert (" " + s)[1..] == s;
  }

  lemma ParseTerminated(name: string, value: string, rest: string)
    requires Plain(name)
    ensures Parse(name + "=" + (Escape(value) + rest)) == Cons((name, value), Parse(rest))
  {
    var text := Escape(value) + rest;
    assert text[1..] == EscapeChars(value) + "'" + rest;
    ReadQuotedEscaped(value, rest);
    ParseStep(name, text);
  }

  lemma ParseUnterminated(name: string, value: string)
    requires Plain(name)
    ensures Parse(name + "=" + ("'" + EscapeChars(value))) == Err(UnterminatedQuote)
  {
    var text := "'" + EscapeChars(value);
    assert text[1..] == EscapeChars(value);
    ReadQuotedUnterminated(value);
    ParseStep(name, text);
  }

  lemma CStringOfEscape(value: string, rest: string)
    ensures CString(Escape(value) + rest) ==
            if '\0' in value then "'" + EscapeChars(CString(value)) else Escape(value) + CString(rest)
  {
    var inner := EscapeChars(value);
    Regroup("'", inner + "'", rest);
    Regroup(inner, "'", rest);
    CStringOfAppend("'", inner + ("'" + rest));
    CStringOfAppend(inner, "'" + rest);
    CStringOfAppend("'", rest);
    CStringOfEscaped(value);
    if '\0' !in value {
      Regroup("'", inner + "'", CString(rest));
      Regroup(inner, "'", CString(rest));
    }
  }

  /** Reading one quoted parameter gives its value and goes on after it; a NUL in the value stops the reading. */
  lemma ParseQuotedSetting(name: string, value: string, rest: string)
    requires Plain(name)
    ensures Parse(CString(Setting(name, value, rest))) ==
            if '\0' in value then Err(UnterminatedQuote) else Cons((name, value), Parse(CString(rest)))
  {
    CStringOfAppend(name + "=", Escape(value) + rest);
    CStringOfEscape(value, rest);
    ParseTerminated(name, value, CString(rest));
    ParseUnterminated(name, CString(value));
  }

  lemma {:induction false} ReadUnquotedDigits(digits: string, rest: string)
    requires AllDigits(digits)
    ensures ReadUnquoted(digits + (" " + rest)) == (digits, rest)
  {
    var s := digits + (" " + rest);
    if digits == [] {
      assert s == " " + rest;
      assert s[1..] == rest;
    } else {
      assert s[1..] == digits[1..] + (" " + rest);
      ReadUnquotedDigits(digits[1..], rest);
      assert digits == [digits[0]] + digits[1..];
    }
  }

  lemma ParsePort(port: nat, rest: string)
    ensures Parse("port" + "=" + (ToString(port) + (" " + rest))) == Cons(("port", ToString(port)), Parse(rest))
  {
    ReadUnquotedDigits(ToString(port), rest);
    ParseStep("port", ToString(port) + (" " + rest));
  }

  /** A blank before a parameter makes no difference. */
  lemma ParseBlank(s: string)
    ensures Parse(CString(" " + s)) == Parse(CString(s))
  {
    CStringOfAppend(" ", s);
    ParseLeadingSpace(CString(s));
  }

  predicate HasNul(d: Database) {
    '\0' in d.host || '\0' in d.name || '\0' in d.user || '\0' in d.password
  }

  function PasswordField(d: Database): Settings {
    if d.password == "" then [] else [("password", d.password)]
  }

  /** The fields of the configuration, the password only when there is one. */
  function Fields(d: Database): Settings {
    [("host", d.host)] + ([("port", ToString(d.port))] + ([("dbname", d.name)] + ([("user", d.user)] + PasswordField(d))))
  }

  lemma ParseNextSetting(name: string, value: string, rest: string)
    requires Plain(name)
    ensures Parse(CString(" " + Setting(name, value, rest))) ==
            if '\0' in value then Err(UnterminatedQuote) else Cons((name, value), Parse(CString(rest)))
  {
    ParseBlank(Setting(name, value, rest));
    ParseQuotedSetting(name, value, rest);
  }

  lemma PlainNames()
    ensures Plain("host") && Plain("dbname") && Plain("user") && Plain("password")
  {
  }

  lemma ParseNothing()
    ensures Parse(CString("")) == Ok([])
  {
  }

  lemma ParsePasswordPart(d: Database)
    ensures Parse(CString(PasswordPart(d))) ==
            if '\0' in d.password then Err(UnterminatedQuote) else Ok(PasswordField(d))
  {
    ParseNothing();
    if d.password != "" {
      PlainNames();
      ParseNextSetting("password", d.password, "");
      var field: Settings := [("password", d.password)];
      assert field + [] == field;
    }
  }

  lemma ParsePortPart(d: Database)
    ensures Parse(CString(PortPart(d))) == Cons(("port", ToString(d.port)), Parse(CString(NamePart(d))))
  {
    var next := Setting("dbname", d.name, UserPart(d));
    ParseBlank("port" + "=" + (ToString(d.port) + NamePart(d)));
    CStringOfPort(d.port, NamePart(d));
    CStringOfAppend(" ", next);
    ParsePort(d.port, CString(next));
    ParseLeadingSpace(CString(next));
  }

  lemma CStringOfPort(port: nat, rest: string)
    ensures CString("port" + "=" + (ToString(port) + rest)) == "port" + "=" + (ToString(port) + CString(rest))
  {
    CStringOfAppend("port" + "=", ToString(port) + rest);
    CStringOfAppend(ToString(port), rest);
  }

  /**
   * Reading the string the service hands to libpq gives exactly its fields, and no value spills into
   * another, for every configuration without NUL; with a NUL anywhere the string is rejected.
   */
  lemma ConnectionStringRoundTrip(d: Database)
    ensures Parse(CString(Build(d))) == if HasNul(d) then Err(UnterminatedQuote) else Ok(Fields(d))
  {
    PlainNames();
    ParseQuotedSetting("host", d.host, PortPart(d));
    ParsePortPart(d);
    ParseNextSetting("dbname", d.name, UserPart(d));
    ParseNextSetting("user", d.user, PasswordPart(d));
    ParsePasswordPart(d);
  }
}

/** The configuration file and the connection string made from it (server/src/server-config.cpp). */
module ServerConfig {
  import opened Wrappers
  import opened Decimal
  import opened Sequences
  import Storage
  import C = ConnectionString

  // Text helpers.

  predicate IsBlank(c: char) {
    c == ' ' || c == '\t' || c == '\n' || c == '\r'
  }

  function TrimLeft(s: string): (t: string)
    ensures t == [] || !IsBlank(t[0])
    ensures s == [] || IsBlank(s[0]) || t == s
    ensures forall c | c in t :: c in s
  {
    if s != [] && IsBlank(s[0]) then TrimLeft(s[1..]) else s
  }

  function TrimRight(s: string): (t: string)
    ensures t == [] || !IsBlank(t[|t| - 1])
    ensures s == [] || IsBlank(s[|s| - 1]) || t == s
    ensures t <= s
  {
    if s != [] && IsBlank(s[|s| - 1]) then TrimRight(s[..|s| - 1]) else s
  }

  function Trim(s: string): (t: string)
    ensures t == [] || (!IsBlank(t[0]) && !IsBlank(t[|t| - 1]))
    ensures s == [] || IsBlank(s[0]) || IsBlank(s[|s| - 1]) || t == s
    ensures forall c | c in t :: c in s
  {
    TrimRight(TrimLeft(s))
  }

  function Unquote(s: string): (t: string)
    ensures forall c | c in t :: c in s
  {
    var v := Trim(s);
    if |v| >= 2 && ((v[0] == '"' && v[|v| - 1] == '"') || (v[0] == '\'' && v[|v| - 1] == '\'')) then v[1..|v| - 1]
    else v
  }

  /** Position of the first `c`, or the length when there is none. */
  function IndexOf(s: string, c: char): (i: nat)
    ensures i <= |s| && (i < |s| ==> s[i] == c)
    ensures forall j | 0 <= j < i :: s[j] != c
    ensures i == |s| <==> c !in s
  {
    if s == [] || s[0] == c then 0 else 1 + IndexOf(s[1..], c)
  }

  function StripComment(line: string): (t: string)
    ensures '#' !in t
    ensures forall c | c in t :: c in line
    ensures '#' !in line ==> t == line
    ensures t <= line && (t != line ==> line[|t|] == '#')
  {
    line[..IndexOf(line, '#')]
  }

  // Settings.

  datatype Settings = Settings(
    host: string, port: nat, workerThreads: Int32, maxMessageSize: nat, logFile: string,
    databaseHost: string, databasePort: nat, databaseName: string, databaseUser: string,
    databasePassword: string, databasePasswordFile: string, explicitConnectionString: string)

  const DEFAULTS := Settings(
    "0.0.0.0", 5555, 4, 65536, "/var/log/console-calculator/server.log",
    "localhost", 5432, "console_calculator", "admin", "", "/run/secrets/cc_db_password", "")

  datatype ConfigError = NotANumber(reason: ParseError) | OutOfUint16Range

  /** The settings that hold text. */
  datatype TextKey =
    | Host | LogFile | DatabaseHost | DatabaseName | DatabaseUser
    | DatabasePassword | DatabasePasswordFile | DatabaseConnectionString

  function KeyName(k: TextKey): string {
    match k
    case Host => "host"
    case LogFile => "log_file"
    case DatabaseHost => "database_host"
    case DatabaseName => "database_name"
    case DatabaseUser => "database_user"
    case DatabasePassword => "database_password"
    case DatabasePasswordFile => "database_password_file"
    case DatabaseConnectionString => "database_connection_string"
  }

  function Get(s: Settings, k: TextKey): string {
    match k
    case Host => s.host
    case LogFile => s.logFile
    case DatabaseHost => s.databaseHost
    case DatabaseName => s.databaseName
    case DatabaseUser => s.databaseUser
    case DatabasePassword => s.databasePassword
    case DatabasePasswordFile => s.databasePasswordFile
    case DatabaseConnectionString => s.explicitConnectionString
  }

  function Set(s: Settings, k: TextKey, value: string): (r: Settings)
    ensures Get(r, k) == value
    ensures forall l: TextKey :: l != k ==> Get(r, l) == Get(s, l)
    ensures forall l: NumberKey :: GetNumber(r, l) == GetNumber(s, l)
  {
    match k
    case Host => s.(host := value)
    case LogFile => s.(logFile := value)
    case DatabaseHost => s.(databaseHost := value)
    case DatabaseName => s.(databaseName := value)
    case DatabaseUser => s.(databaseUser := value)
    case DatabasePassword => s.(databasePassword := value)
    case DatabasePasswordFile => s.(databasePasswordFile := value)
    case DatabaseConnectionString => s.(explicitConnectionString := value)
  }

  /** The settings that hold numbers. */
  datatype NumberKey = Port | WorkerThreads | MaxMessageSize | DatabasePort

  function NumberName(k: NumberKey): string {
    match k
    case Port => "port"
    case WorkerThreads => "worker_threads"
    case MaxMessageSize => "max_message_size"
    case DatabasePort => "database_port"
  }

  /** The C++ types of the numbers: `std::uint16_t`, `int` and `std::size_t`. */
  predicate InRange(k: NumberKey, n: int) {
    match k
    case Port => 0 <= n <= 65535
    case WorkerThreads => INT32_MIN <= n <= INT32_MAX
    case MaxMessageSize => 0 <= n < 0x1_0000_0000_0000_0000
    case DatabasePort => 0 <= n <= 65535
  }

  function GetNumber(s: Settings, k: NumberKey): int {
    match k
    case Port => s.port
    case WorkerThreads => s.workerThreads
    case MaxMessageSize => s.maxMessageSize
    case DatabasePort => s.databasePort
  }

  function SetNumber(s: Settings, k: NumberKey, n: int): (r: Settings)
    requires InRange(k, n)
    ensures GetNumber(r, k) == n
    ensures forall l: NumberKey :: l != k ==> GetNumber(r, l) == GetNumber(s, l)
    ensures forall l: TextKey :: Get(r, l) == Get(s, l)
  {
    match k
    case Port => s.(port := n)
    case WorkerThreads => s.(workerThreads := n)
    case MaxMessageSize => s.(maxMessageSize := n)
    case DatabasePort => s.(databasePort := n)
  }

  function NumberKeyOf(key: string): Option<NumberKey> {
    if key == "port" then Some(Port)
    else if key == "worker_threads" then Some(WorkerThreads)
    else if key == "max_message_size" then Some(MaxMessageSize)
    else if key == "database_port" then Some(DatabasePort)
    else None
  }

  function ParseUint16(value: string): Result<int, ConfigError> {
    match Stoul(value)
    case Err(e) => Err(NotANumber(e))
    case Ok(n) => if n > 65535 then Err(OutOfUint16Range) else Ok(n)
  }

  function ParseNumber(k: NumberKey, value: string): (r: Result<int, ConfigError>)
    ensures r.Ok? ==> InRange(k, r.value)
  {
    match k
    case Port => ParseUint16(value)
    case DatabasePort => ParseUint16(value)
    case WorkerThreads => (
      match Stoi(value)
      case Err(e) => Err(NotANumber(e))
      case Ok(n) => Ok(n))
    case MaxMessageSize => (
      match Stoul(value)
      case Err(e) => Err(NotANumber(e))
      case Ok(n) => Ok(n))
  }

  function TextKeyOf(key: string): Option<TextKey> {
    if key == "host" then Some(Host)
    else if key == "log_file" then Some(LogFile)
    else if key == "database_host" then Some(DatabaseHost)
    else if key == "database_name" then Some(DatabaseName)
    else if key == "database_user" then Some(DatabaseUser)
    else if key == "database_password" then Some(DatabasePassword)
    else if key == "database_password_file" then Some(DatabasePasswordFile)
    else if key == "database_connection_string" then Some(DatabaseConnectionString)
    else None
  }

  /** `apply_key_value`: unknown keys are ignored. */
  function Apply(s: Settings, key: string, value: string): Result<Settings, ConfigError> {
    match TextKeyOf(key)
    case Some(k) => Ok(Set(s, k, value))
    case None =>
      match NumberKeyOf(key)
      case None => Ok(s)
      case Some(k) =>
        match ParseNumber(k, value)
        case Err(e) => Err(e)
        case Ok(n) => Ok(SetNumber(s, k, n))
  }

  function ReadLine(s: Settings, line: string): Result<Settings, ConfigError> {
    var t := Trim(StripComment(line));
    var i := IndexOf(t, '=');
    if t == [] || i == |t| then Ok(s) else Apply(s, Trim(t[..i]), Unquote(t[i + 1..]))
  }

  /** The lines `std::getline` yields. */
  function GetLines(text: string): seq<string> {
    if text == [] then []
    else
      var i := IndexOf(text, '\n');
      [text[..i]] + if i == |text| then [] else GetLines(text[i + 1..])
  }

  function ReadLines(s: Settings, lines: seq<string>): Result<Settings, ConfigError>
    decreases |lines|
  {
    if lines == [] then Ok(s)
    else
      match ReadLine(s, lines[0])
      case Err(e) => Err(e)
      case Ok(s') => ReadLines(s', lines[1..])
  }

  class ServerConfig {
    var settings: Settings

    constructor ()
      ensures settings == DEFAULTS
    {
      settings := DEFAULTS;
    }

    method ApplyKeyValue(key: string, value: string) returns (r: Result<(), ConfigError>)
      modifies this
      ensures match Apply(old(settings), key, value)
              case Ok(after) => r == Ok(()) && settings == after
              case Err(e) => r == Err(e) && settings == old(settings)
    {
      match Apply(settings, key, value) {
        case Ok(after) =>
          settings := after;
          return Ok(());
        case Err(e) => return Err(e);
      }
    }

    /** One turn of the loop in `from_file`. */
    method ApplyLine(text: string) returns (r: Result<(), ConfigError>)
      modifies this
      ensures match ReadLine(old(settings), text)
              case Ok(after) => r == Ok(()) && settings == after
              case Err(e) => r == Err(e) && settings == old(settings)
    {
      var line := Trim(StripComment(text));
      if line == [] {
        return Ok(());
      }
      var separator := IndexOf(line, '=');
      if separator == |line| {
        return Ok(());
      }
      r := ApplyKeyValue(Trim(line[..separator]), Unquote(line[separator + 1..]));
    }

    /** `from_file`, given the text of the file, or nothing when it cannot be opened. */
    static method FromFile(content: Option<string>) returns (config: ServerConfig, r: Result<(), ConfigError>)
      ensures fresh(config)
      ensures content.None? ==> r == Ok(()) && config.settings == Settings(
                "0.0.0.0", 5555, 4, 65536, "/var/log/console-calculator/server.log",
                "localhost", 5432, "console_calculator", "admin", "", "/run/secrets/cc_db_password", "")
      ensures content.Some? ==>
                match ReadLines(DEFAULTS, GetLines(content.value))
                case Ok(s) => r == Ok(()) && config.settings == s
                case Err(e) => r == Err(e)
    {
      config := new ServerConfig();
      if content.None? {
        return config, Ok(());
      }
      var input := content.value;
      while input != []
        invariant fresh(config)
        invariant ReadLines(config.settings, GetLines(input)) == ReadLines(DEFAULTS, GetLines(content.value))
        decreases |input|
      {
        var end := IndexOf(input, '\n');
        var line := input[..end];
        ghost var lines, before := GetLines(input), config.settings;
        input := if end == |input| then [] else input[end + 1..];
        assert lines == [line] + GetLines(input);
        var applied := config.ApplyLine(line);
        if applied.Err? {
          return config, applied;
        }
        ReadLinesCons(before, line, GetLines(input));
      }
      return config, Ok(());
    }

    /**
     * `database_connection_string`, given the trimmed text of the password file: the explicit string,
     * or one from which libpq reads the settings.
     */
    method DatabaseConnectionString(passwordFileText: string) returns (text: string)
      ensures settings.explicitConnectionString != "" ==> text == settings.explicitConnectionString
      ensures settings.explicitConnectionString == "" ==>
                ConnectsBy(settings, passwordFileText, C.Parse(Storage.CString(text)))
    {
      if settings.explicitConnectionString != "" {
        return settings.explicitConnectionString;
      }
      text := FromFields(passwordFileText);
      BuiltTextReads(settings, passwordFileText);
    }

    /** The part of `database_connection_string` that writes the string out. */
    method FromFields(passwordFileText: string) returns (text: string)
      ensures text == C.Build(DatabaseOf(settings, passwordFileText))
    {
      ghost var d := DatabaseOf(settings, passwordFileText);
      var password := settings.databasePassword;
      if password == "" && settings.databasePasswordFile != "" {
        password := passwordFileText;
      }
      var host := C.EscapeValue(settings.databaseHost);
      var name := C.EscapeValue(settings.databaseName);
      var user := C.EscapeValue(settings.databaseUser);
      text := "host" + "=" + host + " " + ("port" + "=" + ToString(settings.databasePort));
      text := text + " " + ("dbname" + "=" + name);
      text := text + " " + ("user" + "=" + user);
      if password != "" {
        var escaped := C.EscapeValue(password);
        text := text + " " + ("password" + "=" + escaped);
      }
      BuildText(d);
    }
  }

  /**
   * What libpq reads is the settings, field by field: the configured password, or else the text of
   * the password file if one is named, and no password field when that comes out empty. A NUL
   * anywhere is an error.
   */
  predicate ConnectsBy(s: Settings, passwordFileText: string, parsed: Result<C.Settings, C.ConninfoError>) {
    var password :=
      if s.databasePassword != "" then s.databasePassword
      else if s.databasePasswordFile != "" then passwordFileText else "";
    if '\0' in s.databaseHost + s.databaseName + s.databaseUser + password then parsed == Err(C.UnterminatedQuote)
    else parsed == Ok(
           [("host", s.databaseHost), ("port", ToString(s.databasePort)), ("dbname", s.databaseName), ("user", s.databaseUser)]
           + if password != "" then [("password", password)] else [])
  }

  /** The password comes from the configuration, or else from the password file. */
  function DatabaseOf(s: Settings, passwordFileText: string): C.Database {
    var password := if s.databasePassword == "" && s.databasePasswordFile != "" then passwordFileText else s.databasePassword;
    C.Database(s.databaseHost, s.databasePort, s.databaseName, s.databaseUser, password)
  }

  /** Appending a parameter and the rest is appending the parameter, then the rest. */
  lemma FlattenNext(text: string, item: string, rest: string)
    ensures text + (" " + (item + rest)) == text + " " + item + rest
  {
    Regroup(text + " ", item, rest);
    Regroup(text, " ", item + rest);
  }

  lemma FlattenSetting(name: string, value: string, rest: string)
    ensures C.Setting(name, value, rest) == (name + "=" + C.Escape(value)) + rest
  {
    Regroup(name + "=", C.Escape(value), rest);
  }

  /** The connection string written out left to right. */
  lemma BuildText(d: C.Database)
    ensures C.Build(d) ==
            "host" + "=" + C.Escape(d.host) + " " + ("port" + "=" + ToString(d.port))
            + " " + ("dbname" + "=" + C.Escape(d.name)) + " " + ("user" + "=" + C.Escape(d.user))
            + if d.password == "" then "" else " " + ("password" + "=" + C.Escape(d.password))
  {
    var host, port := "host" + "=" + C.Escape(d.host), "port" + "=" + ToString(d.port);
    var name, user := "dbname" + "=" + C.Escape(d.name), "user" + "=" + C.Escape(d.user);
    FlattenSetting("host", d.host, C.PortPart(d));
    Regroup("port" + "=", ToString(d.port), C.NamePart(d));
    FlattenNext(host, port, C.NamePart(d));
    FlattenSetting("dbname", d.name, C.UserPart(d));
    FlattenNext(host + " " + port, name, C.UserPart(d));
    FlattenSetting("user", d.user, C.PasswordPart(d));
    FlattenNext(host + " " + port + " " + name, user, C.PasswordPart(d));
    FlattenSetting("password", d.password, "");
    assert ("password" + "=" + C.Escape(d.password)) + "" == "password" + "=" + C.Escape(d.password);
  }

  lemma BuiltTextReads(s: Settings, passwordFileText: string)
    ensures ConnectsBy(s, passwordFileText, C.Parse(Storage.CString(C.Build(DatabaseOf(s, passwordFileText)))))
  {
    var d := DatabaseOf(s, passwordFileText);
    C.ConnectionStringRoundTrip(d);
    NulSomewhere(d);
    FieldsInOrder(d);
  }

  lemma NulSomewhere(d: C.Database)
    ensures C.HasNul(d) <==> '\0' in d.host + d.name + d.user + d.password
  {
  }

  lemma FieldsInOrder(d: C.Database)
    ensures C.Fields(d) == [("host", d.host), ("port", ToString(d.port)), ("dbname", d.name), ("user", d.user)]
                           + if d.password != "" then [("password", d.password)] else []
  {
  }

  // What a line of the file says, character by character.

  /** Only the blanks that trimming removes. */
  predicate AllBlank(s: string) {
    forall i | 0 <= i < |s| :: s[i] in " \t\n\r"
  }

  predicate Bordered(m: string) {
    m == [] || (m[0] !in " \t\n\r" && m[|m| - 1] !in " \t\n\r")
  }

  lemma {:induction false} TrimLeftOf(l: string, m: string)
    requires AllBlank(l) && (m == [] || m[0] !in " \t\n\r")
    ensures TrimLeft(l + m) == m
  {
    if l == [] {
      assert l + m == m;
    } else {
      assert (l + m)[1..] == l[1..] + m;
      TrimLeftOf(l[1..], m);
    }
  }

  lemma {:induction false} TrimRightOf(m: string, r: string)
    requires AllBlank(r) && (m == [] || m[|m| - 1] !in " \t\n\r")
    ensures TrimRight(m + r) == m
  {
    if r == [] {
      assert m + r == m;
    } else {
      var s := m + r;
      assert s[..|s| - 1] == m + r[..|r| - 1];
      assert s[|s| - 1] == r[|r| - 1];
      TrimRightOf(m, r[..|r| - 1]);
    }
  }

  /** Trimming removes the blanks around, and nothing else. */
  lemma TrimLeaves(l: string, m: string, r: string)
    requires AllBlank(l) && Bordered(m) && AllBlank(r)
    ensures Trim(l + m + r) == m
  {
    if m == [] {
      assert l + m + r == (l + r) + [];
      TrimLeftOf(l + r, []);
    } else {
      assert l + m + r == l + (m + r);
      TrimLeftOf(l, m + r);
      TrimRightOf(m, r);
    }
  }

  /** A value without the pair of quotes it may stand in. */
  function WithoutQuotes(m: string): string {
    if |m| >= 2 && (m[0] == '"' == m[|m| - 1] || m[0] == '\'' == m[|m| - 1]) then m[1..|m| - 1] else m
  }

  /** The text of a line before its comment. */
  function Assignment(b1: string, name: string, b2: string, b3: string, m: string, b4: string): string {
    b1 + (name + b2 + "=" + (b3 + m)) + b4
  }

  lemma AssignmentTrims(b1: string, name: string, b2: string, b3: string, m: string, b4: string)
    requires AllBlank(b1) && IsName(name) && AllBlank(b2) && AllBlank(b3) && Bordered(m) && AllBlank(b4)
    ensures Trim(Assignment(b1, name, b2, b3, m, b4)) == name + b2 + "=" + (if m == [] then [] else b3 + m)
  {
    NameFacts(name);
    var t := name + b2 + "=" + (if m == [] then [] else b3 + m);
    var r := if m == [] then b3 + b4 else b4;
    assert Assignment(b1, name, b2, b3, m, b4) == b1 + t + r;
    assert t[0] == name[0];
    assert IsNameChar(name[0]);
    assert t[|t| - 1] == if m == [] then '=' else m[|m| - 1];
    TrimLeaves(b1, t, r);
  }

  lemma ApplyAssignment(s: Settings, line: string, name: string, b2: string, tail: string)
    requires IsName(name) && AllBlank(b2) && Trim(StripComment(line)) == name + b2 + "=" + tail
    ensures ReadLine(s, line) == Apply(s, name, Unquote(tail))
  {
    assert '=' !in name + b2 && Trim(name + b2) == name by {
      NameFacts(name);
      assert [] + name + b2 == name + b2;
      TrimLeaves([], name, b2);
    }
    SplitAtEquals(name + b2, tail);
  }

  lemma UnquoteTail(b3: string, m: string)
    requires AllBlank(b3) && Bordered(m)
    ensures Unquote(if m == [] then [] else b3 + m) == WithoutQuotes(m)
  {
    var l := if m == [] then [] else b3;
    assert (if m == [] then [] else b3 + m) == l + m + [];
    TrimLeaves(l, m, []);
  }

  lemma NoHashIn(b1: string, name: string, b2: string, b3: string, m: string, b4: string)
    requires AllBlank(b1) && IsName(name) && AllBlank(b2) && AllBlank(b3) && AllBlank(b4) && '#' !in m
    ensures '#' !in Assignment(b1, name, b2, b3, m, b4)
  {
    NameFacts(name);
    assert '#' !in b1 && '#' !in b2 && '#' !in b3 && '#' !in b4;
  }

  /**
   * A line of any layout sets its named key to its value: blanks around name and value do not count,
   * nor does one pair of quotes of either kind, nor anything from a hash on.
   */
  lemma LineLayout(s: Settings, b1: string, name: string, b2: string, b3: string, m: string, b4: string, comment: string)
    requires AllBlank(b1) && IsName(name) && AllBlank(b2) && AllBlank(b3) && AllBlank(b4)
    requires Bordered(m) && '#' !in m && (comment == [] || comment[0] == '#')
    ensures ReadLine(s, Assignment(b1, name, b2, b3, m, b4) + comment) == Apply(s, name, WithoutQuotes(m))
  {
    var body := Assignment(b1, name, b2, b3, m, b4);
    NoHashIn(b1, name, b2, b3, m, b4);
    CommentIsCut(body, comment);
    AssignmentTrims(b1, name, b2, b3, m, b4);
    ApplyAssignment(s, body + comment, name, b2, if m == [] then [] else b3 + m);
    UnquoteTail(b3, m);
  }

  lemma CommentIsCut(body: string, comment: string)
    requires '#' !in body && (comment == [] || comment[0] == '#')
    ensures StripComment(body + comment) == body
  {
    var line := body + comment;
    var i := IndexOf(line, '#');
    if comment == [] {
      assert line == body;
    } else {
      assert line[|body|] == '#';
      assert forall j | 0 <= j < |body| :: line[j] == body[j];
    }
  }

  /** Each name sets its own field and no other. */
  lemma NamesSetTheirFields(s: Settings, value: string)
    ensures Apply(s, "host", value) == Ok(s.(host := value))
    ensures Apply(s, "log_file", value) == Ok(s.(logFile := value))
    ensures Apply(s, "database_host", value) == Ok(s.(databaseHost := value))
    ensures Apply(s, "database_name", value) == Ok(s.(databaseName := value))
    ensures Apply(s, "database_user", value) == Ok(s.(databaseUser := value))
    ensures Apply(s, "database_password", value) == Ok(s.(databasePassword := value))
    ensures Apply(s, "database_password_file", value) == Ok(s.(databasePasswordFile := value))
    ensures Apply(s, "database_connection_string", value) == Ok(s.(explicitConnectionString := value))
  {
  }

  lemma NumberNamesSetTheirFields(s: Settings, n: int)
    ensures 0 <= n <= 65535 ==> Apply(s, "port", ToString(n)) == Ok(s.(port := n))
    ensures 0 <= n <= 65535 ==> Apply(s, "database_port", ToString(n)) == Ok(s.(databasePort := n))
    ensures -0x8000_0000 <= n < 0x8000_0000 ==> Apply(s, "worker_threads", ToString(n)) == Ok(s.(workerThreads := n))
    ensures 0 <= n < 0x1_0000_0000_0000_0000 ==> Apply(s, "max_message_size", ToString(n)) == Ok(s.(maxMessageSize := n))
    ensures 65535 < n < 0x1_0000_0000_0000_0000 ==> ParseUint16(ToString(n)) == Err(OutOfUint16Range)
  {
    NumberNamesAreNames(Port);
    NumberNamesAreNames(DatabasePort);
    NumberNamesAreNames(WorkerThreads);
    NumberNamesAreNames(MaxMessageSize);
    StoiOfToString(n);
    if 0 <= n {
      StoulOfToString(n);
    }
  }

  /** The lines of a text: each up to its newline, the last also without one. */
  lemma LinesOfText(line: string, rest: string)
    requires '\n' !in line
    ensures GetLines("") == []
    ensures GetLines(line + ("\n" + rest)) == [line] + GetLines(rest)
    ensures line != [] ==> GetLines(line) == [line]
  {
    FirstLine(line, rest);
    if line != [] {
      assert line[..|line|] == line;
    }
  }

  // Writing a file and reading it back.

  /** A line of a configuration file: a quoted text, a number, or a line that sets nothing. */
  datatype FileLine =
    | Setting(key: TextKey, value: string)
    | NumberSetting(number: NumberKey, amount: int)
    | Noise(text: string)

  /** Blank lines, comments, lines without an equals sign, and settings nobody knows. */
  predicate SetsNothing(text: string) {
    var t := Trim(StripComment(text));
    || t == [] || '=' !in t
    || (TextKeyOf(Trim(t[..IndexOf(t, '=')])).None? && NumberKeyOf(Trim(t[..IndexOf(t, '=')])).None?)
  }

  predicate Writable(line: FileLine) {
    match line
    case Setting(_, value) => '#' !in value && '\n' !in value
    case NumberSetting(k, n) => InRange(k, n)
    case Noise(text) => '\n' !in text && SetsNothing(text)
  }

  function Quoted(value: string): string {
    "\"" + (value + "\"")
  }

  function Print(line: FileLine): string {
    match line
    case Setting(key, value) => KeyName(key) + "=" + Quoted(value)
    case NumberSetting(k, n) => NumberName(k) + "=" + ToString(n)
    case Noise(text) => text
  }

  function PrintFile(lines: seq<FileLine>): string {
    if lines == [] then [] else Print(lines[0]) + ("\n" + PrintFile(lines[1..]))
  }

  function AfterLine(s: Settings, line: FileLine): Settings
    requires Writable(line)
  {
    match line
    case Setting(k, value) => Set(s, k, value)
    case NumberSetting(k, n) => SetNumber(s, k, n)
    case Noise(_) => s
  }

  predicate AllWritable(lines: seq<FileLine>) {
    forall i | 0 <= i < |lines| :: Writable(lines[i])
  }

  /** The settings after the file's lines, one at a time. */
  function Written(s: Settings, lines: seq<FileLine>): Settings
    requires AllWritable(lines)
    decreases |lines|
  {
    if lines == [] then s else Written(AfterLine(s, lines[0]), lines[1..])
  }

  predicate IsNameChar(c: char) {
    'a' <= c <= 'z' || c == '_'
  }

  /** A name as settings have it: small letters and underscores. */
  predicate IsName(name: string) {
    name != [] && forall i | 0 <= i < |name| :: IsNameChar(name[i])
  }

  lemma KeyNamesAreNames(k: TextKey)
    ensures IsName(KeyName(k)) && TextKeyOf(KeyName(k)) == Some(k)
  {
  }

  lemma NumberNamesAreNames(k: NumberKey)
    ensures IsName(NumberName(k)) && TextKeyOf(NumberName(k)).None? && NumberKeyOf(NumberName(k)) == Some(k)
  {
    NumberNameLetters(k);
  }

  lemma NumberNameLetters(k: NumberKey)
    ensures IsName(NumberName(k))
  {
  }

  lemma NameFacts(name: string)
    requires IsName(name)
    ensures Trim(name) == name && !IsBlank(name[0])
    ensures '=' !in name && '#' !in name && '\n' !in name
  {
    assert IsNameChar(name[0]) && IsNameChar(name[|name| - 1]);
  }

  lemma SplitAtEquals(name: string, rest: string)
    requires '=' !in name
    ensures var s := name + "=" + rest;
            IndexOf(s, '=') == |name| && s[..|name|] == name && s[|name| + 1..] == rest
  {
    var s := name + "=" + rest;
    assert s[|name|] == '=';
    assert forall j | 0 <= j < |name| :: s[j] == name[j];
  }

  /** The plainest layout: a name, an equals sign, a value. */
  lemma ReadAssignment(s: Settings, name: string, text: string)
    requires IsName(name) && '#' !in text && Bordered(text)
    ensures ReadLine(s, name + "=" + text) == Apply(s, name, WithoutQuotes(text))
  {
    assert name + "=" + text == Assignment([], name, [], [], text, []) + [];
    LineLayout(s, [], name, [], [], text, [], []);
  }

  lemma QuotedFacts(value: string)
    ensures Bordered(Quoted(value)) && WithoutQuotes(Quoted(value)) == value
    ensures '#' !in value ==> '#' !in Quoted(value)
    ensures '\n' !in value ==> '\n' !in Quoted(value)
  {
    var q := Quoted(value);
    assert q[0] == '"' && q[|q| - 1] == '"';
    assert q[1..|q| - 1] == value;
  }

  lemma ReadSetting(s: Settings, k: TextKey, value: string)
    requires '#' !in value
    ensures ReadLine(s, Print(Setting(k, value))) == Ok(Set(s, k, value))
  {
    KeyNamesAreNames(k);
    QuotedFacts(value);
    ReadAssignment(s, KeyName(k), Quoted(value));
  }

  lemma NumberTextFacts(n: int)
    ensures var text := ToString(n); '#' !in text && '\n' !in text && Bordered(text) && WithoutQuotes(text) == text
  {
    var text := ToString(n);
    assert IsDigit(text[|text| - 1]);
  }

  lemma ReadNumber(s: Settings, k: NumberKey, n: int)
    ensures ReadLine(s, Print(NumberSetting(k, n))) == Apply(s, NumberName(k), ToString(n))
  {
    NumberNamesAreNames(k);
    NumberTextFacts(n);
    ReadAssignment(s, NumberName(k), ToString(n));
  }

  /** A printed number parses to itself exactly when it has the range of its setting. */
  lemma ParsePrintedNumber(k: NumberKey, n: int)
    ensures ParseNumber(k, ToString(n)) == Ok(n) <==> InRange(k, n)
  {
    ScanOfToString(n);
    if InRange(k, n) {
      match k {
        case WorkerThreads => StoiOfToString(n);
        case _ => StoulOfToString(n);
      }
    }
  }

  lemma ReadNoise(s: Settings, text: string)
    requires SetsNothing(text)
    ensures ReadLine(s, text) == Ok(s)
  {
  }

  lemma NewlineAfter(line: string, rest: string)
    requires '\n' !in line
    ensures IndexOf(line + ("\n" + rest), '\n') == |line|
  {
    var text := line + ("\n" + rest);
    assert text[|line|] == '\n';
    assert forall j | 0 <= j < |line| :: text[j] == line[j];
  }

  lemma FirstLine(line: string, rest: string)
    requires '\n' !in line
    ensures GetLines(line + ("\n" + rest)) == [line] + GetLines(rest)
  {
    var text := line + ("\n" + rest);
    NewlineAfter(line, rest);
    assert text[..|line|] == line;
    assert text[|line| + 1..] == rest;
  }

  lemma AssignmentIsOneLine(name: string, text: string)
    requires IsName(name) && '\n' !in text
    ensures '\n' !in name + "=" + text
  {
    NameFacts(name);
  }

  lemma ReadPrintedSetting(s: Settings, k: TextKey, value: string)
    requires '#' !in value && '\n' !in value
    ensures ReadLine(s, Print(Setting(k, value))) == Ok(Set(s, k, value)) && '\n' !in Print(Setting(k, value))
  {
    ReadSetting(s, k, value);
    KeyNamesAreNames(k);
    QuotedFacts(value);
    AssignmentIsOneLine(KeyName(k), Quoted(value));
  }

  lemma ReadPrintedNumber(s: Settings, k: NumberKey, n: int)
    ensures '\n' !in Print(NumberSetting(k, n))
    ensures InRange(k, n) ==> ReadLine(s, Print(NumberSetting(k, n))) == Ok(SetNumber(s, k, n))
  {
    ReadNumber(s, k, n);
    NumberNamesAreNames(k);
    ParsePrintedNumber(k, n);
    NumberTextFacts(n);
    AssignmentIsOneLine(NumberName(k), ToString(n));
  }

  lemma ReadPrintedLine(s: Settings, line: FileLine)
    requires Writable(line)
    ensures ReadLine(s, Print(line)) == Ok(AfterLine(s, line)) && '\n' !in Print(line)
  {
    match line {
      case Setting(k, value) => ReadPrintedSetting(s, k, value);
      case NumberSetting(k, n) => ReadPrintedNumber(s, k, n);
      case Noise(text) => ReadNoise(s, text);
    }
  }

  /** A line that throws ends the reading. */
  lemma BadLineStops(s: Settings, line: string, rest: seq<string>)
    requires ReadLine(s, line).Err?
    ensures ReadLines(s, [line] + rest) == ReadLine(s, line)
  {
  }

  lemma ReadLinesCons(s: Settings, line: string, rest: seq<string>)
    requires ReadLine(s, line).Ok?
    ensures ReadLines(s, [line] + rest) == ReadLines(ReadLine(s, line).value, rest)
  {
    assert ([line] + rest)[1..] == rest;
  }

  lemma PrintFileThen(lines: seq<FileLine>, rest: string)
    requires lines != []
    ensures PrintFile(lines) + rest == Print(lines[0]) + ("\n" + (PrintFile(lines[1..]) + rest))
  {
    Regroup("\n", PrintFile(lines[1..]), rest);
    Regroup(Print(lines[0]), "\n" + PrintFile(lines[1..]), rest);
  }

  /** What follows the written lines is read with the settings they leave. */
  lemma {:induction false} ReadPrintedPrefix(s: Settings, lines: seq<FileLine>, rest: string)
    requires AllWritable(lines)
    ensures ReadLines(s, GetLines(PrintFile(lines) + rest)) == ReadLines(Written(s, lines), GetLines(rest))
    decreases |lines|
  {
    if lines == [] {
      assert PrintFile(lines) + rest == rest;
    } else {
      var more := PrintFile(lines[1..]) + rest;
      ReadPrintedLine(s, lines[0]);
      PrintFileThen(lines, rest);
      FirstLine(Print(lines[0]), more);
      ReadLinesCons(s, Print(lines[0]), GetLines(more));
      ReadPrintedPrefix(AfterLine(s, lines[0]), lines[1..], rest);
    }
  }

  lemma ReadPrintedFile(s: Settings, lines: seq<FileLine>)
    requires AllWritable(lines)
    ensures ReadLines(s, GetLines(PrintFile(lines))) == Ok(Written(s, lines))
  {
    ReadPrintedPrefix(s, lines, []);
    assert PrintFile(lines) + [] == PrintFile(lines);
  }

  /** A number beyond its setting ends the reading with an error, whatever comes before and after. */
  lemma BadNumberStops(lines: seq<FileLine>, k: NumberKey, n: nat, rest: string)
    requires AllWritable(lines) && !InRange(k, n)
    ensures var r := ReadLines(DEFAULTS, GetLines(PrintFile(lines) + (Print(NumberSetting(k, n)) + ("\n" + rest))));
            && r.Err?
            && (k.Port? || k.DatabasePort? ==>
                  r.error == if n < 0x1_0000_0000_0000_0000 then OutOfUint16Range else NotANumber(OutOfRange))
            && (k.WorkerThreads? || k.MaxMessageSize? ==> r.error == NotANumber(OutOfRange))
  {
    var line, s := Print(NumberSetting(k, n)), Written(DEFAULTS, lines);
    ReadPrintedPrefix(DEFAULTS, lines, line + ("\n" + rest));
    ReadPrintedNumber(s, k, n);
    FirstLine(line, rest);
    ReadNumber(s, k, n);
    BadNumber(s, k, n);
    BadLineStops(s, line, GetLines(rest));
  }

  lemma BadNumber(s: Settings, k: NumberKey, n: nat)
    requires !InRange(k, n)
    ensures Apply(s, NumberName(k), ToString(n)) ==
            if (k.Port? || k.DatabasePort?) && n < 0x1_0000_0000_0000_0000 then Err(OutOfUint16Range) else Err(NotANumber(OutOfRange))
  {
    NumberNamesAreNames(k);
    StoiOfToString(n);
    StoulOfToString(n);
  }

  predicate Sets(line: FileLine, k: TextKey) {
    line.Setting? && line.key == k
  }

  predicate SetsNumber(line: FileLine, k: NumberKey) {
    line.NumberSetting? && line.number == k
  }

  ghost predicate NotSetFrom(lines: seq<FileLine>, from: nat, k: TextKey)
    requires from <= |lines|
  {
    forall j | from <= j < |lines| :: !Sets(lines[j], k)
  }

  ghost predicate NumberNotSetFrom(lines: seq<FileLine>, from: nat, k: NumberKey)
    requires from <= |lines|
  {
    forall j | from <= j < |lines| :: !SetsNumber(lines[j], k)
  }

  lemma {:induction false} WrittenKeepsUnset(s: Settings, lines: seq<FileLine>, k: TextKey)
    requires AllWritable(lines) && NotSetFrom(lines, 0, k)
    ensures Get(Written(s, lines), k) == Get(s, k)
    decreases |lines|
  {
    if lines != [] {
      assert !Sets(lines[0], k);
      assert forall j | 0 <= j < |lines| - 1 :: lines[1..][j] == lines[j + 1];
      WrittenKeepsUnset(AfterLine(s, lines[0]), lines[1..], k);
    }
  }

  lemma {:induction false} WrittenKeepsLast(s: Settings, lines: seq<FileLine>, i: nat, k: TextKey)
    requires AllWritable(lines) && i < |lines| && Sets(lines[i], k) && NotSetFrom(lines, i + 1, k)
    ensures Get(Written(s, lines), k) == lines[i].value
    decreases |lines|
  {
    var after := AfterLine(s, lines[0]);
    assert forall j | 0 <= j < |lines| - 1 :: lines[1..][j] == lines[j + 1];
    if i == 0 {
      WrittenKeepsUnset(after, lines[1..], k);
    } else {
      WrittenKeepsLast(after, lines[1..], i - 1, k);
    }
  }

  lemma {:induction false} WrittenKeepsUnsetNumber(s: Settings, lines: seq<FileLine>, k: NumberKey)
    requires AllWritable(lines) && NumberNotSetFrom(lines, 0, k)
    ensures GetNumber(Written(s, lines), k) == GetNumber(s, k)
    decreases |lines|
  {
    if lines != [] {
      assert !SetsNumber(lines[0], k);
      assert forall j | 0 <= j < |lines| - 1 :: lines[1..][j] == lines[j + 1];
      WrittenKeepsUnsetNumber(AfterLine(s, lines[0]), lines[1..], k);
    }
  }

  lemma {:induction false} WrittenKeepsLastNumber(s: Settings, lines: seq<FileLine>, i: nat, k: NumberKey)
    requires AllWritable(lines) && i < |lines| && SetsNumber(lines[i], k) && NumberNotSetFrom(lines, i + 1, k)
    ensures GetNumber(Written(s, lines), k) == lines[i].amount
    decreases |lines|
  {
    var after := AfterLine(s, lines[0]);
    assert forall j | 0 <= j < |lines| - 1 :: lines[1..][j] == lines[j + 1];
    if i == 0 {
      WrittenKeepsUnsetNumber(after, lines[1..], k);
    } else {
      WrittenKeepsLastNumber(after, lines[1..], i - 1, k);
    }
  }

  /** The settings are those the lines write: the last value of each key, the default of every other. */
  ghost predicate HoldsLast(s: Settings, lines: seq<FileLine>) {
    && (forall i: nat, k | i < |lines| && Sets(lines[i], k) && NotSetFrom(lines, i + 1, k) :: Get(s, k) == lines[i].value)
    && (forall k | NotSetFrom(lines, 0, k) :: Get(s, k) == Get(DEFAULTS, k))
  }

  ghost predicate HoldsLastNumbers(s: Settings, lines: seq<FileLine>) {
    && (forall i: nat, k | i < |lines| && SetsNumber(lines[i], k) && NumberNotSetFrom(lines, i + 1, k) ::
          GetNumber(s, k) == lines[i].amount)
    && (forall k | NumberNotSetFrom(lines, 0, k) :: GetNumber(s, k) == GetNumber(DEFAULTS, k))
  }

  lemma WrittenHoldsLast(lines: seq<FileLine>)
    requires AllWritable(lines)
    ensures HoldsLast(Written(DEFAULTS, lines), lines)
  {
    var s := Written(DEFAULTS, lines);
    forall i: nat, k | i < |lines| && Sets(lines[i], k) && NotSetFrom(lines, i + 1, k)
      ensures Get(s, k) == lines[i].value
    {
      WrittenKeepsLast(DEFAULTS, lines, i, k);
    }
    forall k | NotSetFrom(lines, 0, k) ensures Get(s, k) == Get(DEFAULTS, k) {
      WrittenKeepsUnset(DEFAULTS, lines, k);
    }
  }

  lemma WrittenHoldsLastNumbers(lines: seq<FileLine>)
    requires AllWritable(lines)
    ensures HoldsLastNumbers(Written(DEFAULTS, lines), lines)
  {
    var s := Written(DEFAULTS, lines);
    forall i: nat, k | i < |lines| && SetsNumber(lines[i], k) && NumberNotSetFrom(lines, i + 1, k)
      ensures GetNumber(s, k) == lines[i].amount
    {
      WrittenKeepsLastNumber(DEFAULTS, lines, i, k);
    }
    forall k | NumberNotSetFrom(lines, 0, k) ensures GetNumber(s, k) == GetNumber(DEFAULTS, k) {
      WrittenKeepsUnsetNumber(DEFAULTS, lines, k);
    }
  }

  /**
   * Configuration round trip: whatever blank lines, comments and unknown keys stand between them,
   * reading the written settings gives the last value of each key, quotes, equals signs and blanks
   * included, and the default of every other, for texts and for numbers.
   */
  lemma ConfigRoundTrip(lines: seq<FileLine>) returns (s: Settings)
    requires AllWritable(lines)
    ensures ReadLines(DEFAULTS, GetLines(PrintFile(lines))) == Ok(s)
    ensures HoldsLast(s, lines) && HoldsLastNumbers(s, lines)
  {
    s := Written(DEFAULTS, lines);
    ReadPrintedFile(DEFAULTS, lines);
    WrittenHoldsLast(lines);
    WrittenHoldsLastNumbers(lines);
  }

  // Which values survive.

  /** No text setting holds a hash or a line break. */
  ghost predicate Clean(s: Settings) {
    forall k: TextKey :: '#' !in Get(s, k) && '\n' !in Get(s, k)
  }

  predicate CleanText(text: string) {
    forall i | 0 <= i < |text| :: text[i] != '#' && text[i] != '\n'
  }

  lemma DefaultTextsAreClean()
    ensures CleanText("0.0.0.0") && CleanText("/var/log/console-calculator/server.log")
    ensures CleanText("localhost") && CleanText("console_calculator") && CleanText("admin")
    ensures CleanText("") && CleanText("/run/secrets/cc_db_password")
  {
  }

  lemma DefaultsAreClean()
    ensures Clean(DEFAULTS)
  {
    DefaultTextsAreClean();
    forall k: TextKey ensures '#' !in Get(DEFAULTS, k) && '\n' !in Get(DEFAULTS, k) {
      assert CleanText(Get(DEFAULTS, k));
    }
  }

  lemma ApplyKeepsClean(s: Settings, key: string, value: string)
    requires Clean(s) && '#' !in value && '\n' !in value && Apply(s, key, value).Ok?
    ensures Clean(Apply(s, key, value).value)
  {
    var after := Apply(s, key, value).value;
    forall k: TextKey ensures '#' !in Get(after, k) && '\n' !in Get(after, k) {
      assert TextKeyOf(key) != Some(k) ==> Get(after, k) == Get(s, k);
    }
  }

  lemma ReadLineKeepsClean(s: Settings, line: string)
    requires Clean(s) && '\n' !in line && ReadLine(s, line).Ok?
    ensures Clean(ReadLine(s, line).value)
  {
    var t := Trim(StripComment(line));
    var i := IndexOf(t, '=');
    if i < |t| {
      var value := Unquote(t[i + 1..]);
      assert '#' !in value && '\n' !in value;
      ApplyKeepsClean(s, Trim(t[..i]), value);
    }
  }

  lemma {:induction false} ReadTextKeepsClean(s: Settings, text: string)
    requires Clean(s) && ReadLines(s, GetLines(text)).Ok?
    ensures Clean(ReadLines(s, GetLines(text)).value)
    decreases |text|
  {
    if text != [] {
      var i := IndexOf(text, '\n');
      ReadLineKeepsClean(s, text[..i]);
      assert GetLines(text)[0] == text[..i];
      var s' := ReadLine(s, text[..i]).value;
      if i < |text| {
        assert GetLines(text)[1..] == GetLines(text[i + 1..]);
        ReadTextKeepsClean(s', text[i + 1..]);
      } else {
        assert GetLines(text)[1..] == [];
      }
    }
  }

  /** A value written between quotes is read back exactly when it has no hash and no line break. */
  lemma SettingSurvivesExactlyWhenClean(k: TextKey, value: string)
    ensures var r := ReadLines(DEFAULTS, GetLines(PrintFile([Setting(k, value)])));
            r.Ok? && Get(r.value, k) == value <==> '#' !in value && '\n' !in value
  {
    var lines := [Setting(k, value)];
    var r := ReadLines(DEFAULTS, GetLines(PrintFile(lines)));
    if '#' !in value && '\n' !in value {
      ReadPrintedFile(DEFAULTS, lines);
      WrittenKeepsLast(DEFAULTS, lines, 0, k);
    } else if r.Ok? {
      DefaultsAreClean();
      ReadTextKeepsClean(DEFAULTS, PrintFile(lines));
    }
  }

  /** A number is read back exactly when it has the range of its setting. */
  lemma NumberSurvivesExactlyInRange(k: NumberKey, n: int)
    ensures var r := ReadLines(DEFAULTS, GetLines(PrintFile([NumberSetting(k, n)])));
            r.Ok? && GetNumber(r.value, k) == n <==> InRange(k, n)
  {
    var line := Print(NumberSetting(k, n));
    ReadNumber(DEFAULTS, k, n);
    NumberNamesAreNames(k);
    ParsePrintedNumber(k, n);
    ReadPrintedNumber(DEFAULTS, k, n);
    FirstLine(line, []);
    assert PrintFile([NumberSetting(k, n)]) == line + ("\n" + []);
    assert GetLines(PrintFile([NumberSetting(k, n)])) == [line];
  }
}

/** The configuration file: what the installer writes, and the two programs that read it back. Converting between
    UTF-8 and wide text is taken as the identity. */
module Config {
  import opened Bytes
  import opened Ini
  import opened Text

  // ---- Numbers ---------------------------------------------------------------------------------

  const ULONG: int := 0x1_0000_0000

  function Digit(n: nat): (c: char)
    requires n < 10
    ensures '0' <= c <= '9'
  {
    ('0' as int + n) as char
  }

  predicate IsDigit(c: char) {
    '0' <= c <= '9'
  }

  function DigitValue(c: char): (n: nat)
    requires IsDigit(c)
  {
    c as int - '0' as int
  }

  function Decimal(n: nat): (s: string)
    ensures s != "" && forall i :: 0 <= i < |s| ==> IsDigit(s[i])
  {
    if n < 10 then [Digit(n)] else Decimal(n / 10) + [Digit(n % 10)]
  }

  function Value(digits: string): nat
    requires forall i :: 0 <= i < |digits| ==> IsDigit(digits[i])
  {
    if digits == "" then 0
    else Value(digits[..|digits| - 1]) * 10 + DigitValue(digits[|digits| - 1])
  }

  lemma {:induction false} DecimalValue(n: nat)
    ensures Value(Decimal(n)) == n
  {
    if n >= 10 {
      DecimalValue(n / 10);
      var s := Decimal(n);
      assert s[..|s| - 1] == Decimal(n / 10);
    } else {
      assert Value([Digit(n)]) == Value([]) * 10 + n;
    }
  }

  /** How many digits a text starts with. */
  function DigitCount(s: string): (n: nat)
    ensures n <= |s| && forall i :: 0 <= i < n ==> IsDigit(s[i])
    ensures n < |s| ==> !IsDigit(s[n])
  {
    if s == "" || !IsDigit(s[0]) then 0 else 1 + DigitCount(s[1..])
  }

  /** The number at the start of a text, if there is one. */
  function LeadingNumber(s: string): Option<nat> {
    var n := DigitCount(s);
    if n == 0 then None else Some(Value(s[..n]))
  }

  /** `std::stoul` with a 32-bit `unsigned long`: leading white space, one sign, then digits, whatever
      follows; nothing when there are no digits or too large a number. */
  function Stoul(s: string): Option<int> {
    var t := TrimLeft(Hook, s);
    var signed := t != "" && (t[0] == '-' || t[0] == '+');
    var number := LeadingNumber(if signed then t[1..] else t);
    if number.None? || number.value >= ULONG then None
    else if signed && t[0] == '-' && number.value > 0 then Some(ULONG - number.value)
    else Some(number.value)
  }

  lemma NumberOfDigits(s: string)
    requires s != "" && forall i :: 0 <= i < |s| ==> IsDigit(s[i])
    ensures LeadingNumber(s) == Some(Value(s))
  {
    assert DigitCount(s) == |s| && s[..|s|] == s;
  }

  lemma StoulOfDigits(s: string)
    requires s != "" && forall i :: 0 <= i < |s| ==> IsDigit(s[i])
    requires Value(s) < ULONG
    ensures Stoul(s) == Some(Value(s))
  {
    assert IsDigit(s[0]);
    assert TrimLeft(Hook, s) == s && s[0] != '-' && s[0] != '+';
    NumberOfDigits(s);
  }

  lemma NumberRoundTrip(n: nat)
    requires n < ULONG
    ensures Stoul(Decimal(n)) == Some(n)
    ensures Trimmed(Shared, Decimal(n)) && Trimmed(Hook, Decimal(n)) && '\n' !in Decimal(n)
  {
    var s := Decimal(n);
    DecimalValue(n);
    StoulOfDigits(s);
    assert IsDigit(s[0]) && IsDigit(s[|s| - 1]);
  }

  predicate ParseBool(d: Dialect, s: string) {
    Lower(Trim(d, s)) in ["1", "true", "yes", "on"]
  }

  // ---- The file as it is written ---------------------------------------------------------------

  datatype AppConfig = AppConfig(server: string, port: int, token: string, caCertPath: string,
    discordRoot: string, skipTlsVerify: bool)
  {
    /** The port is 16 bits wide. */
    predicate Valid() {
      0 <= port < U16
    }
  }

  function Bit(b: bool): string {
    if b then "1" else "0"
  }

  function TunnelSettings(c: AppConfig): seq<(string, string)>
    requires c.Valid()
  {
    [("enabled", "1"), ("server", c.server), ("port", Decimal(c.port)), ("token", c.token),
     ("ca_cert", c.caCertPath), ("insecure", Bit(c.skipTlsVerify)), ("listen_port", "17821")]
  }

  function SettingLines(settings: seq<(string, string)>): (lines: seq<string>)
    ensures |lines| == |settings|
    ensures forall i :: 0 <= i < |settings| ==> lines[i] == settings[i].0 + "=" + settings[i].1
  {
    seq(|settings|, i requires 0 <= i < |settings| => settings[i].0 + "=" + settings[i].1)
  }

  function TunnelLines(c: AppConfig): seq<string>
    requires c.Valid()
  {
    ["[tunnel]"] + SettingLines(TunnelSettings(c))
  }

  function ClientLines(c: AppConfig): seq<string> {
    ["", "[client]", "discord_root" + "=" + c.discordRoot]
  }

  function SavedLines(c: AppConfig): seq<string>
    requires c.Valid()
  {
    TunnelLines(c) + ClientLines(c)
  }

  function Save(c: AppConfig): string
    requires c.Valid()
  {
    Unlines(SavedLines(c))
  }

  // ---- The installer's reader ------------------------------------------------------------------

  function GetValue(values: map<Key, string>, section: string, name: string, fallback: string): string {
    if Key(section, name) in values then values[Key(section, name)]
    else if fallback != "" && Key("", fallback) in values then values[Key("", fallback)]
    else ""
  }

  /** The port a text stands for, or the default. */
  function LoadedPort(text: string): int {
    var parsed := Stoul(text);
    if text != "" && parsed.Some? && 1 <= parsed.value <= 65535 then parsed.value else 443
  }

  function LoadValues(values: map<Key, string>): Option<AppConfig> {
    var server := GetValue(values, "tunnel", "server", "server");
    var token := GetValue(values, "tunnel", "token", "token");
    var caCertPath := GetValue(values, "tunnel", "ca_cert", "ca_cert_path");
    if values == map[] || server == "" || token == "" || caCertPath == "" then None
    else Some(AppConfig(server, LoadedPort(GetValue(values, "tunnel", "port", "port")), token, caCertPath,
      GetValue(values, "client", "discord_root", "discord_root"),
      ParseBool(Shared, GetValue(values, "tunnel", "insecure", "skip_tls_verify"))))
  }

  function Load(text: string): Option<AppConfig> {
    LoadValues(Parse(Shared, text))
  }

  /** The configurations a file can carry. */
  predicate Printable(c: AppConfig) {
    && c.server != "" && c.token != "" && c.caCertPath != "" && 1 <= c.port <= 65535
    && Clean(Shared, c.server) && Clean(Shared, c.token) && Clean(Shared, c.caCertPath) && Clean(Shared, c.discordRoot)
  }

  /** Whatever the text, a configuration that loads is one that prints. */
  lemma LoadedIsPrintable(text: string)
    ensures Load(text).Some? ==> Printable(Load(text).value)
  {
    var values := Parse(Shared, text);
    ParsedIsClean(Shared, text);
    assert Clean(Shared, "");
    GetIsClean(values, "tunnel", "server", "server");
    GetIsClean(values, "tunnel", "token", "token");
    GetIsClean(values, "tunnel", "ca_cert", "ca_cert_path");
    GetIsClean(values, "client", "discord_root", "discord_root");
  }

  lemma GetIsClean(values: map<Key, string>, section: string, name: string, fallback: string)
    requires AllClean(Shared, values)
    ensures Clean(Shared, GetValue(values, section, name, fallback))
  {
  }

  // ---- The hook's reader -----------------------------------------------------------------------

  datatype TunnelConfig = TunnelConfig(enabled: bool, server: string, port: int, token: string,
    caCert: Option<string>, insecure: bool, listenPort: int)

  predicate Has(values: map<Key, string>, name: string, fallback: string) {
    Key("tunnel", name) in values || (fallback != "" && Key("", fallback) in values)
  }

  function NonEmpty(s: string): Option<string> {
    if s == "" then None else Some(s)
  }

  /** The tunnel section with its numbers and flags read. A number that cannot be read ends the load; one that
      is too large for 16 bits is cut. */
  function HookSettings(enabled: bool, server: string, port: Option<int>, token: string, caCert: string,
    insecure: bool, listenPort: Option<int>): Option<TunnelConfig>
  {
    if port.None? || listenPort.None? then None
    else Some(TunnelConfig(enabled, server, port.value % U16, token, NonEmpty(caCert), insecure,
      listenPort.value % U16))
  }

  /** The tunnel section as the hook reads it. */
  function HookLoadValues(values: map<Key, string>): Option<TunnelConfig> {
    HookSettings(
      !Has(values, "enabled", "") || ParseBool(Hook, GetValue(values, "tunnel", "enabled", "")),
      GetValue(values, "tunnel", "server", "server"),
      if Has(values, "port", "port") then Stoul(GetValue(values, "tunnel", "port", "port")) else Some(443),
      GetValue(values, "tunnel", "token", "token"),
      Trim(Hook, GetValue(values, "tunnel", "ca_cert", "ca_cert_path")),
      ParseBool(Hook, GetValue(values, "tunnel", "insecure", "skip_tls_verify")),
      if Has(values, "listen_port", "") then Stoul(GetValue(values, "tunnel", "listen_port", "")) else Some(17821))
  }

  function HookLoad(text: string): Option<TunnelConfig> {
    HookLoadValues(Parse(Hook, text))
  }

  // ---- Reading what was written ----------------------------------------------------------------

  lemma {:induction false} ReadAppend(d: Dialect, r: Reading, a: seq<string>, b: seq<string>)
    ensures ReadLines(d, r, a + b) == ReadLines(d, ReadLines(d, r, a), b)
    decreases |a|
  {
    if a == [] {
      assert a + b == b;
    } else {
      assert (a + b)[0] == a[0] && (a + b)[1..] == a[1..] + b;
      ReadAppend(d, ReadLine(d, r, a[0]), a[1..], b);
    }
  }

  predicate Distinct(settings: seq<(string, string)>) {
    forall i, j :: 0 <= i < j < |settings| ==> settings[i].0 != settings[j].0
  }

  predicate Plain(settings: seq<(string, string)>) {
    forall i :: 0 <= i < |settings| ==> PlainKey(settings[i].0)
  }

  /** The values after a list of settings under one section, in order. */
  function SetAll(d: Dialect, section: string, values: map<Key, string>, settings: seq<(string, string)>)
    : map<Key, string>
    decreases |settings|
  {
    if settings == [] then values
    else SetAll(d, section, values[Key(section, settings[0].0) := Trim(d, settings[0].1)], settings[1..])
  }

  lemma {:induction false} ReadSettings(d: Dialect, r: Reading, settings: seq<(string, string)>)
    requires Plain(settings)
    ensures ReadLines(d, r, SettingLines(settings)) == r.(values := SetAll(d, r.section, r.values, settings))
    decreases |settings|
  {
    if settings != [] {
      var lines, rest := SettingLines(settings), settings[1..];
      assert lines[1..] == SettingLines(rest);
      WrittenLine(d, r, settings[0].0, settings[0].1);
      assert forall i :: 0 <= i < |rest| ==> rest[i] == settings[i + 1];
      ReadSettings(d, ReadLine(d, r, lines[0]), rest);
    }
  }

  /** Of distinct settings each one is found. */
  lemma {:induction false} AllAreSet(d: Dialect, section: string, values: map<Key, string>,
      settings: seq<(string, string)>, k: Key)
    requires Distinct(settings)
    ensures var after := SetAll(d, section, values, settings);
      && (forall i :: 0 <= i < |settings| && k == Key(section, settings[i].0) ==>
            k in after && after[k] == Trim(d, settings[i].1))
      && ((forall i :: 0 <= i < |settings| ==> k != Key(section, settings[i].0)) && k in values ==>
            k in after && after[k] == values[k])
    decreases |settings|
  {
    if settings != [] {
      var rest := settings[1..];
      assert forall i :: 0 <= i < |rest| ==> rest[i] == settings[i + 1];
      AllAreSet(d, section, values[Key(section, settings[0].0) := Trim(d, settings[0].1)], rest, k);
    }
  }

  lemma KeysArePlain(c: AppConfig)
    requires c.Valid()
    ensures Plain(TunnelSettings(c)) && Distinct(TunnelSettings(c))
    ensures PlainKey("discord_root") && PlainKey("tunnel") && PlainKey("client")
  {
  }

  /** The tunnel settings, stripped the reader's way. */
  predicate HasTunnel(d: Dialect, c: AppConfig, values: map<Key, string>)
    requires c.Valid()
  {
    forall i :: 0 <= i < |TunnelSettings(c)| ==>
      Key("tunnel", TunnelSettings(c)[i].0) in values
      && values[Key("tunnel", TunnelSettings(c)[i].0)] == Trim(d, TunnelSettings(c)[i].1)
  }

  lemma ReadTunnel(d: Dialect, c: AppConfig)
    requires c.Valid()
    ensures HasTunnel(d, c, ReadLines(d, Reading("", map[]), TunnelLines(c)).values)
  {
    var settings := TunnelSettings(c);
    KeysArePlain(c);
    assert "[tunnel]" == "[" + "tunnel" + "]";
    WrittenSection(d, Reading("", map[]), "tunnel");
    assert TunnelLines(c)[1..] == SettingLines(settings);
    ReadSettings(d, Reading("tunnel", map[]), settings);
    forall i | 0 <= i < |settings|
      ensures var values := SetAll(d, "tunnel", map[], settings);
        Key("tunnel", settings[i].0) in values && values[Key("tunnel", settings[i].0)] == Trim(d, settings[i].1)
    {
      AllAreSet(d, "tunnel", map[], settings, Key("tunnel", settings[i].0));
    }
  }

  lemma ReadThree(d: Dialect, r: Reading, a: string, b: string, c: string)
    ensures ReadLines(d, r, [a, b, c]) == ReadLine(d, ReadLine(d, ReadLine(d, r, a), b), c)
  {
    assert [a, b, c][1..] == [b, c] && [b, c][1..] == [c] && [c][1..] == [];
    var second := ReadLine(d, r, a);
    var third := ReadLine(d, second, b);
    assert ReadLines(d, second, [b, c]) == ReadLines(d, third, [c]);
    assert ReadLines(d, third, [c]) == ReadLines(d, ReadLine(d, third, c), []);
  }

  lemma BlankLine(d: Dialect, r: Reading)
    ensures ReadLine(d, r, "") == r
  {
  }

  /** A blank line, a section and one setting in it. */
  lemma ReadSection(d: Dialect, r: Reading, section: string, key: string, value: string)
    requires PlainKey(section) && PlainKey(key)
    ensures ReadLines(d, r, ["", "[" + section + "]", key + "=" + value]).values
         == r.values[Key(section, key) := Trim(d, value)]
  {
    ReadThree(d, r, "", "[" + section + "]", key + "=" + value);
    BlankLine(d, r);
    WrittenSection(d, r, section);
    WrittenLine(d, r.(section := section), key, value);
  }

  lemma ReadClient(d: Dialect, r: Reading, c: AppConfig, section: string, key: string)
    requires section == "client" && key == "discord_root"
    ensures ReadLines(d, r, ClientLines(c)).values == r.values[Key(section, key) := Trim(d, c.discordRoot)]
  {
    assert "[" + section + "]" == "[client]";
    assert key + "=" + c.discordRoot == "discord_root" + "=" + c.discordRoot;
    ReadSection(d, r, section, key, c.discordRoot);
  }

  /** What a reader finds in a file that was saved. */
  predicate Saved(d: Dialect, c: AppConfig, values: map<Key, string>)
    requires c.Valid()
  {
    && HasTunnel(d, c, values)
    && Key("client", "discord_root") in values
    && values[Key("client", "discord_root")] == Trim(d, c.discordRoot)
  }

  lemma ReadSaved(d: Dialect, c: AppConfig)
    requires c.Valid()
    ensures Saved(d, c, ReadLines(d, Reading("", map[]), SavedLines(c)).values)
  {
    ReadAppend(d, Reading("", map[]), TunnelLines(c), ClientLines(c));
    ReadTunnel(d, c);
    ReadClient(d, ReadLines(d, Reading("", map[]), TunnelLines(c)), c, "client", "discord_root");
  }

  predicate OneLine(c: AppConfig) {
    '\n' !in c.server && '\n' !in c.token && '\n' !in c.caCertPath && '\n' !in c.discordRoot
  }

  lemma SettingsAreWhole(settings: seq<(string, string)>)
    requires Plain(settings) && forall i :: 0 <= i < |settings| ==> '\n' !in settings[i].1
    ensures AllWhole(SettingLines(settings))
  {
    forall i | 0 <= i < |settings| ensures '\n' !in SettingLines(settings)[i] {
      assert PlainKey(settings[i].0);
    }
  }

  lemma SavedIsWhole(c: AppConfig)
    requires c.Valid() && OneLine(c)
    ensures AllWhole(SavedLines(c))
  {
    KeysArePlain(c);
    NumberRoundTrip(c.port);
    SettingsAreWhole(TunnelSettings(c));
  }

  /** A saved file holds every value, stripped the reader's way, whatever values are on one line. */
  lemma ParseSaved(d: Dialect, c: AppConfig)
    requires c.Valid() && OneLine(c)
    ensures Saved(d, c, Parse(d, Save(c)))
  {
    SavedIsWhole(c);
    LinesRoundTrip(SavedLines(c));
    ReadSaved(d, c);
  }

  lemma ListenPort()
    ensures Decimal(17821) == "17821"
  {
    assert Decimal(17) == "17";
    assert Decimal(178) == "178";
    assert Decimal(1782) == "1782";
  }

  /** The printed numbers as either reader gets them. */
  lemma PrintedNumbers(d: Dialect, port: nat)
    requires port < U16
    ensures Trim(d, Decimal(port)) == Decimal(port) && Stoul(Decimal(port)) == Some(port)
    ensures Trim(d, "17821") == "17821" && Stoul("17821") == Some(17821)
  {
    NumberRoundTrip(port);
    ListenPort();
    NumberRoundTrip(17821);
    TrimFixes(d, Decimal(port));
    TrimFixes(d, "17821");
  }

  /** The printed flags as either reader gets them. */
  lemma PrintedFlag(d: Dialect, b: bool)
    ensures Trim(d, Bit(b)) == Bit(b) && (ParseBool(d, Bit(b)) <==> b)
  {
    TrimFixes(d, Bit(b));
    assert Lower("1") == "1" && Lower("0") == "0";
  }

  /** What the tunnel settings say, one by one. */
  lemma TunnelValues(d: Dialect, c: AppConfig, values: map<Key, string>)
    requires c.Valid() && HasTunnel(d, c, values)
    ensures GetValue(values, "tunnel", "server", "server") == Trim(d, c.server)
    ensures GetValue(values, "tunnel", "token", "token") == Trim(d, c.token)
    ensures GetValue(values, "tunnel", "ca_cert", "ca_cert_path") == Trim(d, c.caCertPath)
    ensures GetValue(values, "tunnel", "port", "port") == Trim(d, Decimal(c.port)) && Has(values, "port", "port")
    ensures GetValue(values, "tunnel", "insecure", "skip_tls_verify") == Trim(d, Bit(c.skipTlsVerify))
    ensures GetValue(values, "tunnel", "enabled", "") == Trim(d, "1") && Has(values, "enabled", "")
    ensures GetValue(values, "tunnel", "listen_port", "") == Trim(d, "17821") && Has(values, "listen_port", "")
  {
    var settings := TunnelSettings(c);
    assert settings[0].0 == "enabled" && settings[1].0 == "server" && settings[2].0 == "port";
    assert settings[3].0 == "token" && settings[4].0 == "ca_cert" && settings[5].0 == "insecure";
    assert settings[6].0 == "listen_port";
  }

  lemma PrintableIsStripped(c: AppConfig)
    requires Printable(c)
    ensures Trim(Shared, c.server) == c.server && Trim(Shared, c.token) == c.token
    ensures Trim(Shared, c.caCertPath) == c.caCertPath && Trim(Shared, c.discordRoot) == c.discordRoot
  {
    TrimFixes(Shared, c.server);
    TrimFixes(Shared, c.token);
    TrimFixes(Shared, c.caCertPath);
    TrimFixes(Shared, c.discordRoot);
  }

  lemma LoadsSaved(c: AppConfig, values: map<Key, string>)
    requires c.Valid() && Printable(c) && Saved(Shared, c, values)
    ensures LoadValues(values) == Some(c)
  {
    PrintableIsStripped(c);
    TunnelValues(Shared, c, values);
    PrintedNumbers(Shared, c.port);
    PrintedFlag(Shared, c.skipTlsVerify);
  }

  /** Saving and loading give the configuration back exactly for the printable ones. */
  lemma LoadSaveRoundTrip(c: AppConfig)
    requires c.Valid()
    ensures Load(Save(c)) == Some(c) <==> Printable(c)
  {
    LoadedIsPrintable(Save(c));
    if Printable(c) {
      ParseSaved(Shared, c);
      LoadsSaved(c, Parse(Shared, Save(c)));
    }
  }

  /** What the hook makes of a saved file. */
  function HookView(c: AppConfig): TunnelConfig {
    TunnelConfig(true, Trim(Hook, c.server), c.port, Trim(Hook, c.token), NonEmpty(Trim(Hook, c.caCertPath)),
      c.skipTlsVerify, 17821)
  }

  /** The hook's settings, from the texts it finds. */
  lemma HookReadsTexts(values: map<Key, string>, on: string, port: string, flag: string, listen: string)
    requires Has(values, "enabled", "") && GetValue(values, "tunnel", "enabled", "") == on
    requires Has(values, "port", "port") && GetValue(values, "tunnel", "port", "port") == port
    requires Has(values, "listen_port", "") && GetValue(values, "tunnel", "listen_port", "") == listen
    requires GetValue(values, "tunnel", "insecure", "skip_tls_verify") == flag
    ensures HookLoadValues(values) == HookSettings(ParseBool(Hook, on),
        GetValue(values, "tunnel", "server", "server"), Stoul(port), GetValue(values, "tunnel", "token", "token"),
        Trim(Hook, GetValue(values, "tunnel", "ca_cert", "ca_cert_path")), ParseBool(Hook, flag), Stoul(listen))
  {
  }

  lemma SettingsAreView(c: AppConfig)
    requires c.Valid()
    ensures HookSettings(true, Trim(Hook, c.server), Some(c.port), Trim(Hook, c.token), Trim(Hook, c.caCertPath),
        c.skipTlsVerify, Some(17821)) == Some(HookView(c))
  {
  }

  lemma TextsAreView(c: AppConfig, on: string, port: string, flag: string, listen: string)
    requires c.Valid() && ParseBool(Hook, on) && Stoul(port) == Some(c.port) && Stoul(listen) == Some(17821)
    requires ParseBool(Hook, flag) == c.skipTlsVerify
    ensures HookSettings(ParseBool(Hook, on), Trim(Hook, c.server), Stoul(port), Trim(Hook, c.token),
        Trim(Hook, Trim(Hook, c.caCertPath)), ParseBool(Hook, flag), Stoul(listen)) == Some(HookView(c))
  {
    TrimTwice(Hook, c.caCertPath);
    SettingsAreView(c);
  }

  lemma HookReadsValues(c: AppConfig, values: map<Key, string>)
    requires c.Valid() && HasTunnel(Hook, c, values)
    ensures HookLoadValues(values) == Some(HookView(c))
  {
    var on, port := Trim(Hook, "1"), Trim(Hook, Decimal(c.port));
    var flag, listen := Trim(Hook, Bit(c.skipTlsVerify)), Trim(Hook, "17821");
    assert ParseBool(Hook, on) && Stoul(port) == Some(c.port) && Stoul(listen) == Some(17821)
        && ParseBool(Hook, flag) == c.skipTlsVerify by {
      PrintedNumbers(Hook, c.port);
      PrintedFlag(Hook, c.skipTlsVerify);
      PrintedFlag(Hook, true);
    }
    TunnelValues(Hook, c, values);
    HookReadsTexts(values, on, port, flag, listen);
    TextsAreView(c, on, port, flag, listen);
  }

  /** The hook finds, in any saved file with its values on one line, what was saved, stripped its own way. */
  lemma HookReadsSaved(c: AppConfig)
    requires c.Valid() && OneLine(c)
    ensures HookLoad(Save(c)) == Some(HookView(c))
  {
    ParseSaved(Hook, c);
    HookReadsValues(c, Parse(Hook, Save(c)));
  }

  /** The two readers agree on what was saved exactly when no value has a vertical tab or a form feed at an
      end: the hook strips those, the installer keeps them. */
  lemma ReadersAgree(c: AppConfig)
    requires c.Valid() && Printable(c)
    ensures HookLoad(Save(c)) == Some(TunnelConfig(true, c.server, c.port, c.token, Some(c.caCertPath),
              c.skipTlsVerify, 17821))
       <==> Trimmed(Hook, c.server) && Trimmed(Hook, c.token) && Trimmed(Hook, c.caCertPath)
  {
    HookReadsSaved(c);
    TrimFixes(Hook, c.server);
    TrimFixes(Hook, c.token);
    TrimFixes(Hook, c.caCertPath);
  }

  // ---- The programs themselves -----------------------------------------------------------------

  lemma {:induction false} UnlinesAppend(lines: seq<string>, line: string)
    ensures Unlines(lines + [line]) == Unlines(lines) + line + "\n"
  {
    if lines == [] {
      assert [line][1..] == [];
    } else {
      assert (lines + [line])[1..] == lines[1..] + [line];
      UnlinesAppend(lines[1..], line);
    }
  }

  method WriteLine(output: string, ghost lines: seq<string>, line: string)
    returns (longer: string, ghost written: seq<string>)
    requires output == Unlines(lines)
    ensures longer == output + line + "\n"
    ensures written == lines + [line] && longer == Unlines(written)
  {
    UnlinesAppend(lines, line);
    written := lines + [line];
    longer := output + line + "\n";
  }

  /** The file, line by line. */
  lemma SavedLineByLine(c: AppConfig)
    requires c.Valid()
    ensures TunnelLines(c) == ["[tunnel]", "enabled=1", "server=" + c.server, "port=" + Decimal(c.port),
        "token=" + c.token, "ca_cert=" + c.caCertPath, "insecure=" + Bit(c.skipTlsVerify), "listen_port=17821"]
    ensures ClientLines(c) == ["", "[client]", "discord_root=" + c.discordRoot]
  {
    assert "enabled=1" == "enabled" + "=" + "1" && "listen_port=17821" == "listen_port" + "=" + "17821";
    assert "server=" == "server" + "=" && "port=" == "port" + "=" && "token=" == "token" + "=";
    assert "ca_cert=" == "ca_cert" + "=" && "insecure=" == "insecure" + "=";
    assert "discord_root=" == "discord_root" + "=";
  }

  /** `save_config`: the file, written out in order. */
  method SaveConfig(c: AppConfig) returns (output: string)
    requires c.Valid()
    ensures output == Save(c)
  {
    ghost var lines: seq<string> := [];
    output := "";
    output, lines := WriteLine(output, lines, "[tunnel]");
    output, lines := WriteLine(output, lines, "enabled=1");
    output, lines := WriteLine(output, lines, "server=" + c.server);
    output, lines := WriteLine(output, lines, "port=" + Decimal(c.port));
    output, lines := WriteLine(output, lines, "token=" + c.token);
    output, lines := WriteLine(output, lines, "ca_cert=" + c.caCertPath);
    output, lines := WriteLine(output, lines, "insecure=" + Bit(c.skipTlsVerify));
    output, lines := WriteLine(output, lines, "listen_port=17821");
    assert lines == TunnelLines(c) by {
      SavedLineByLine(c);
    }
    output, lines := WriteLine(output, lines, "");
    output, lines := WriteLine(output, lines, "[client]");
    output, lines := WriteLine(output, lines, "discord_root=" + c.discordRoot);
    SavedLineByLine(c);
    assert |lines| == |SavedLines(c)|;
    assert lines == SavedLines(c);
  }

  /** `load_config`: fill in a configuration from what was parsed, and refuse an incomplete one. */
  method LoadConfig(text: string) returns (config: Option<AppConfig>)
    ensures config == Load(text)
    ensures config.Some? ==> Printable(config.value)
  {
    LoadedIsPrintable(text);
    var values := ParseIni(Shared, text);
    if values == map[] {
      return None;
    }
    var server := GetValue(values, "tunnel", "server", "server");
    var token := GetValue(values, "tunnel", "token", "token");
    var caCertPath := GetValue(values, "tunnel", "ca_cert", "ca_cert_path");
    var discordRoot := GetValue(values, "client", "discord_root", "discord_root");
    var port := 443;
    var portValue := GetValue(values, "tunnel", "port", "port");
    if portValue != "" {
      var parsed := Stoul(portValue);
      if parsed.Some? && 1 <= parsed.value <= 65535 {
        port := parsed.value;
      }
    }
    var skipTlsVerify := false;
    var insecure := GetValue(values, "tunnel", "insecure", "skip_tls_verify");
    if insecure != "" {
      skipTlsVerify := ParseBool(Shared, insecure);
    }
    if server == "" || token == "" || caCertPath == "" {
      return None;
    }
    return Some(AppConfig(server, port, token, caCertPath, discordRoot, skipTlsVerify));
  }
}

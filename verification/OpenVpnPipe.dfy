/** The pipe between OpenVPN's `--up` script, which prints, and `_read_connection_info`, which
    parses (`_openvpn.py`). */
module OpenVpnPipe {
  import opened Prelude

  const DNS_OPTION: string := "dhcp-option DNS "

  datatype ConnectionInfo = ConnectionInfo(gateway: string, tun: string, dns: seq<string>)

  // ------------------------------------------------------------------ lines and blanks

  /** What `str.strip` takes for blank, up to U+00A0. */
  predicate Blank(c: char) {
    c == ' ' || '\t' <= c <= '\r' || '\U{1C}' <= c <= '\U{1F}' || c == '\U{85}' || c == '\U{A0}'
  }

  /** By their codes. */
  lemma BlankCodes(c: char)
    ensures Blank(c) <==> c as int in {9, 10, 11, 12, 13, 28, 29, 30, 31, 32, 133, 160}
  {
  }

  function StripLeft(s: string): string {
    if s != [] && Blank(s[0]) then StripLeft(s[1..]) else s
  }

  function StripRight(s: string): string {
    if s != [] && Blank(s[|s| - 1]) then StripRight(s[..|s| - 1]) else s
  }

  function Strip(s: string): string {
    StripRight(StripLeft(s))
  }

  predicate Trimmed(s: string) {
    s == [] || (!Blank(s[0]) && !Blank(s[|s| - 1]))
  }

  /** One line, with its newline if there is one; at the end of the stream, nothing. */
  function ReadLine(stream: string): (r: (string, string))
    ensures stream == r.0 + r.1
    ensures stream != [] ==> r.0 != []
  {
    if stream == [] then ([], [])
    else if stream[0] == '\n' then ([stream[0]], stream[1..])
    else var (line, rest) := ReadLine(stream[1..]); ([stream[0]] + line, rest)
  }

  // ------------------------------------------------------------------ the printer

  /** The options whose value is an address, up to the first unset or empty option. */
  function DnsValues(options: seq<string>): seq<string> {
    if options == [] || options[0] == [] then [] else ValueOf(options[0]) + DnsValues(options[1..])
  }

  /** The value of a DNS option; no other option has one. */
  function ValueOf(option: string): seq<string> {
    if DNS_OPTION <= option then [option[|DNS_OPTION|..]] else []
  }

  function Lines(values: seq<string>): string {
    if values == [] then [] else values[0] + "\n" + Lines(values[1..])
  }

  function Print(gateway: string, tun: string, options: seq<string>): string {
    gateway + "\n" + (tun + "\n" + (Lines(DnsValues(options)) + "\n"))
  }

  lemma HeadFirst(gateway: string, tun: string, lines: string)
    ensures gateway + "\n" + (tun + "\n") + lines + "\n" == gateway + "\n" + (tun + "\n" + (lines + "\n"))
  {
  }

  lemma {:induction false} LinesAppend(values: seq<string>, more: seq<string>)
    ensures Lines(values + more) == Lines(values) + Lines(more)
  {
    if values == [] {
      assert values + more == more;
    } else {
      LinesAppend(values[1..], more);
      assert (values + more)[1..] == values[1..] + more;
    }
  }

  /** The `case` of the script. */
  method PrintOption(val: string) returns (line: string)
    ensures line == Lines(ValueOf(val))
  {
    line := "";
    if DNS_OPTION <= val {
      line := val[|DNS_OPTION|..] + "\n";
      assert Lines(ValueOf(val)) == line + "" by { assert ValueOf(val)[1..] == []; }
    }
  }

  /** The loop of the script: `options[i - 1]` is `foreign_option_i`, unset beyond the end. */
  method PrintOptions(options: seq<string>) returns (lines: string)
    ensures lines == Lines(DnsValues(options))
  {
    lines := "";
    ghost var printed: seq<string> := [];
    var i := 1;
    while true
      invariant 1 <= i <= |options| + 1
      invariant lines == Lines(printed)
      invariant DnsValues(options) == printed + DnsValues(options[i - 1..])
      decreases |options| - i + 1
    {
      var val := if i <= |options| then options[i - 1] else "";
      if val == "" {
        break;
      }
      StepValues(options, i - 1, printed);
      LinesAppend(printed, ValueOf(val));
      var line := PrintOption(val);
      lines := lines + line;
      printed := printed + ValueOf(val);
      i := i + 1;
    }
    assert DnsValues(options[i - 1..]) == [];
    assert DnsValues(options) == printed;
  }

  lemma StepValues(options: seq<string>, i: nat, printed: seq<string>)
    requires i < |options| && options[i] != [] && DnsValues(options) == printed + DnsValues(options[i..])
    ensures DnsValues(options) == printed + ValueOf(options[i]) + DnsValues(options[i + 1..])
  {
    var rest := options[i..];
    assert rest[0] == options[i] && rest[1..] == options[i + 1..];
    AppendAssociates(printed, ValueOf(rest[0]), DnsValues(rest[1..]));
  }

  lemma AppendAssociates<T>(a: seq<T>, b: seq<T>, c: seq<T>)
    ensures a + (b + c) == a + b + c
  {
  }

  method UpScript(gateway: string, tun: string, options: seq<string>) returns (pipe: string)
    ensures pipe == Print(gateway, tun, options)
  {
    pipe := gateway + "\n";
    pipe := pipe + (tun + "\n");
    var lines := PrintOptions(options);
    pipe := pipe + lines;
    HeadFirst(gateway, tun, lines);
    pipe := pipe + "\n";
  }

  // ------------------------------------------------------------------ the parser

  function ParseDns(stream: string): seq<string>
    decreases |stream|
  {
    var (line, rest) := ReadLine(stream);
    if Strip(line) == [] then [] else [Strip(line)] + ParseDns(rest)
  }

  /** `None` is the `RuntimeError` of an OpenVPN that exits before it writes anything. */
  function Parse(stream: string): Option<ConnectionInfo> {
    if stream == [] then None
    else
      var (first, rest) := ReadLine(stream);
      var (second, rest') := ReadLine(rest);
      Some(ConnectionInfo(Strip(first), Strip(second), ParseDns(rest')))
  }

  method ReadConnectionInfo(stream: string) returns (info: Option<ConnectionInfo>)
    ensures info == Parse(stream)
  {
    var (data, rest) := ReadLine(stream);
    if data == "" {
      return None;
    }
    var gateway := Strip(data);
    var (second, later) := ReadLine(rest);
    var tun := Strip(second);
    var dns: seq<string> := [];
    ghost var start := later;
    while true
      invariant ParseDns(start) == dns + ParseDns(later)
      decreases |later|
    {
      var (line, next) := ReadLine(later);
      if Strip(line) == "" {
        break;
      }
      dns := dns + [Strip(line)];
      later := next;
    }
    assert ParseDns(start) == dns + [] == dns;
    return Some(ConnectionInfo(gateway, tun, dns));
  }

  /** What `connect` yields: without a DNS server, the gateway is one. */
  function Usable(info: ConnectionInfo): ConnectionInfo {
    if info.dns == [] then info.(dns := [info.gateway]) else info
  }

  // ------------------------------------------------------------------ laws of strip and readline

  lemma {:induction false} StripLeftDropsNewline(s: string)
    ensures StripLeft(s + "\n") == if StripLeft(s) == [] then [] else StripLeft(s) + "\n"
  {
    if s == [] {
      assert s + "\n" == "\n" && "\n"[1..] == "";
    } else {
      assert (s + "\n")[1..] == s[1..] + "\n";
      if Blank(s[0]) {
        StripLeftDropsNewline(s[1..]);
      }
    }
  }

  lemma StripDropsNewline(s: string)
    ensures Strip(s + "\n") == Strip(s)
  {
    StripLeftDropsNewline(s);
    var left := StripLeft(s);
    if left != [] {
      assert (left + "\n")[..|left|] == left;
    }
  }

  lemma {:induction false} StripLeftTrims(s: string)
    ensures var left := StripLeft(s); left == [] || (!Blank(left[0]) && |left| <= |s| && left == s[|s| - |left|..])
  {
    if s != [] && Blank(s[0]) {
      StripLeftTrims(s[1..]);
    }
  }

  lemma {:induction false} StripRightTrims(s: string)
    requires s == [] || !Blank(s[0])
    ensures var right := StripRight(s); Trimmed(right) && |right| <= |s| && right == s[..|right|]
  {
    if s != [] && Blank(s[|s| - 1]) {
      assert |s| > 1;
      StripRightTrims(s[..|s| - 1]);
    }
  }

  lemma StripTrims(s: string)
    ensures Trimmed(Strip(s))
    ensures Trimmed(s) ==> Strip(s) == s
    ensures forall c :: c in Strip(s) ==> c in s
  {
    StripLeftTrims(s);
    StripRightTrims(StripLeft(s));
  }

  lemma {:induction false} ReadLineCuts(line: string, rest: string)
    requires '\n' !in line
    ensures ReadLine(line + "\n" + rest) == (line + "\n", rest)
  {
    if line == [] {
      assert line + "\n" + rest == "\n" + rest;
    } else {
      ReadLineCuts(line[1..], rest);
      assert (line + "\n" + rest)[1..] == line[1..] + "\n" + rest;
      assert [line[0]] + (line[1..] + "\n") == line + "\n";
    }
  }

  lemma {:induction false} ReadLineShape(stream: string)
    ensures var line := ReadLine(stream).0;
            '\n' !in line || (line[|line| - 1] == '\n' && '\n' !in line[..|line| - 1])
  {
    if stream != [] && stream[0] != '\n' {
      ReadLineShape(stream[1..]);
      var tail := ReadLine(stream[1..]).0;
      var line := ReadLine(stream).0;
      assert line == [stream[0]] + tail;
      if '\n' in line {
        assert line[..|line| - 1] == [stream[0]] + tail[..|tail| - 1];
      }
    }
  }

  // ------------------------------------------------------------------ the round trip

  predicate SingleLine(s: string) {
    '\n' !in s
  }

  /** A value that survives the pipe: one line, no blanks around it, not empty. */
  predicate Clean(s: string) {
    s != [] && SingleLine(s) && Trimmed(s)
  }

  /** The values stripped, up to the first that is blank. */
  function UpToBlank(values: seq<string>): seq<string> {
    if values == [] || Strip(values[0]) == [] then [] else [Strip(values[0])] + UpToBlank(values[1..])
  }

  lemma {:induction false} ParseLines(values: seq<string>)
    requires forall i :: 0 <= i < |values| ==> SingleLine(values[i])
    ensures ParseDns(Lines(values) + "\n") == UpToBlank(values)
  {
    if values == [] {
      assert Lines(values) + "\n" == "" + "\n" + "";
      ReadLineCuts("", "");
      StripDropsNewline("");
    } else {
      assert Lines(values) + "\n" == values[0] + "\n" + (Lines(values[1..]) + "\n");
      ReadLineCuts(values[0], Lines(values[1..]) + "\n");
      StripDropsNewline(values[0]);
      ParseLines(values[1..]);
    }
  }

  /** The reader undoes the script: for single-line values, it sees the gateway and the tunnel
      address stripped, and the DNS values stripped, in order, up to the first blank one. */
  lemma ReaderUndoesScript(gateway: string, tun: string, options: seq<string>)
    requires SingleLine(gateway) && SingleLine(tun)
    requires forall i :: 0 <= i < |DnsValues(options)| ==> SingleLine(DnsValues(options)[i])
    ensures Parse(Print(gateway, tun, options)) == Some(ConnectionInfo(Strip(gateway), Strip(tun), UpToBlank(DnsValues(options))))
    ensures ReadLine(Print(gateway, tun, options)).0 == gateway + "\n"
  {
    HeadUndone(gateway, tun, options);
    ParseLines(DnsValues(options));
  }

  lemma HeadUndone(gateway: string, tun: string, options: seq<string>)
    requires SingleLine(gateway) && SingleLine(tun)
    ensures Parse(Print(gateway, tun, options)) ==
              Some(ConnectionInfo(Strip(gateway), Strip(tun), ParseDns(Lines(DnsValues(options)) + "\n")))
    ensures var (first, rest) := ReadLine(Print(gateway, tun, options)); first == gateway + "\n" && ReadLine(rest).0 == tun + "\n"
  {
    var last := Lines(DnsValues(options)) + "\n";
    ReadLineCuts(gateway, tun + "\n" + last);
    ReadLineCuts(tun, last);
    StripDropsNewline(gateway);
    StripDropsNewline(tun);
    assert Print(gateway, tun, options) == gateway + "\n" + (tun + "\n" + last);
  }

  lemma {:induction false} CleanSurvives(values: seq<string>)
    requires forall i :: 0 <= i < |values| ==> Clean(values[i])
    ensures UpToBlank(values) == values
  {
    if values != [] {
      StripTrims(values[0]);
      CleanSurvives(values[1..]);
    }
  }

  /** Whatever the stream, what is parsed as DNS servers are clean lines. */
  lemma {:induction false} ParsedAreClean(stream: string)
    ensures forall i :: 0 <= i < |ParseDns(stream)| ==> Clean(ParseDns(stream)[i])
    decreases |stream|
  {
    var (line, rest) := ReadLine(stream);
    StripTrims(line);
    if Strip(line) != [] {
      ReadLineShape(stream);
      if '\n' in line {
        StripDropsNewline(line[..|line| - 1]);
        assert line == line[..|line| - 1] + "\n";
        StripTrims(line[..|line| - 1]);
      }
      ParsedAreClean(rest);
    }
  }

  /** The parsed list is exactly the list of DNS values if and only if every one of them is a
      non-empty, trimmed, single line. */
  lemma DnsSurvivesIffClean(gateway: string, tun: string, options: seq<string>)
    requires SingleLine(gateway) && SingleLine(tun)
    ensures var parsed := Parse(Print(gateway, tun, options));
      && parsed.Some?
      && (parsed.value.dns == DnsValues(options) <==> forall i :: 0 <= i < |DnsValues(options)| ==> Clean(DnsValues(options)[i]))
  {
    HeadUndone(gateway, tun, options);
    ParsedAreClean(Lines(DnsValues(options)) + "\n");
    if forall i :: 0 <= i < |DnsValues(options)| ==> Clean(DnsValues(options)[i]) {
      ParseLines(DnsValues(options));
      CleanSurvives(DnsValues(options));
    }
  }

  /** How many of the options are DNS options. */
  function DnsOptions(options: seq<string>): nat {
    if options == [] then 0 else (if DNS_OPTION <= options[0] then 1 else 0) + DnsOptions(options[1..])
  }

  /** The values are those of the `dhcp-option DNS` options before the first unset one, in order:
      the value of the i-th option stands behind those of the DNS options ahead of it. */
  lemma {:induction false} DnsValuesAreTheDnsOptions(options: seq<string>, n: nat, i: nat)
    requires i <= n <= |options| && (forall k :: 0 <= k < n ==> options[k] != []) && (n < |options| ==> options[n] == [])
    ensures |DnsValues(options)| == DnsOptions(options[..n])
    ensures i < n && DNS_OPTION <= options[i] ==>
              var k := DnsOptions(options[..i]);
              k < |DnsValues(options)| && options[i] == DNS_OPTION + DnsValues(options)[k]
  {
    if n > 0 {
      DnsValuesAreTheDnsOptions(options[1..], n - 1, if i > 0 then i - 1 else 0);
      assert options[..n][1..] == options[1..][..n - 1];
      if i > 0 {
        assert options[..i][1..] == options[1..][..i - 1];
      }
    }
  }

  /** Whatever comes through the pipe, even cut short: an error exactly when nothing does, and
      otherwise a list of DNS servers that is never empty: without any, it is the gateway, which
      stands on the first line. */
  lemma UsableDnsIsNeverEmpty(stream: string)
    ensures Parse(stream).None? <==> stream == ""
    ensures stream != "" ==>
              var parsed := Parse(stream).value;
              && Usable(parsed).dns == (if parsed.dns == [] then [Strip(ReadLine(stream).0)] else parsed.dns)
              && Usable(parsed).gateway == parsed.gateway && Usable(parsed).tun == parsed.tun
              && Usable(parsed).dns != []
  {
  }
}

/**
 The remote identity marker (app/services/remote_probe.py): the file a tunnel's remote shell
 prints, how Python reads it back, and how the cleanup script looks its fields up.
 */
module Markers {
  import opened Wrappers
  import opened Text
  import opened Decimals

  datatype TunnelIdentity = TunnelIdentity(
    tunnelId: string,
    remotePort: int,
    remoteUser: string,
    sshdPid: int,
    startTicks: int,
    bootId: string,
    connection: string)

  // ---------------------------------------------------------------- valid identities

  predicate IsHex(c: char) {
    '0' <= c <= '9' || 'a' <= c <= 'f' || 'A' <= c <= 'F'
  }

  /** The canonical UUID form, in either case. */
  predicate IsUuid(s: string) {
    |s| == 36 && forall i | 0 <= i < 36 :: if i in {8, 13, 18, 23} then s[i] == '-' else IsHex(s[i])
  }

  predicate IsLetter(c: char) {
    'A' <= c <= 'Z' || 'a' <= c <= 'z'
  }

  /** REMOTE_USER_RE. */
  predicate IsRemoteUser(s: string) {
    && 1 <= |s| <= 64 && (IsLetter(s[0]) || s[0] == '_')
    && forall i | 0 <= i < |s| :: IsLetter(s[i]) || IsDigit(s[i]) || s[i] in "_.-"
  }

  predicate IsPort(s: string) {
    PyInt(s).Some? && 1 <= PyInt(s).value <= 65535
  }

  /** An SSH_CONNECTION value; `isAddress` stands for ipaddress.ip_address. */
  predicate IsConnection(s: string, isAddress: string -> bool) {
    var words := Words(s);
    |words| == 4 && isAddress(words[0]) && IsPort(words[1]) && isAddress(words[2]) && IsPort(words[3])
  }

  /** RemoteTunnelIdentity.validate. */
  predicate IsValid(id: TunnelIdentity, isAddress: string -> bool) {
    && IsUuid(id.tunnelId) && 1 <= id.remotePort <= 65535 && IsRemoteUser(id.remoteUser)
    && id.sshdPid > 0 && id.startTicks > 0 && IsUuid(id.bootId) && IsConnection(id.connection, isAddress)
  }

  // ---------------------------------------------------------------- printing

  function Fields(id: TunnelIdentity): (fields: seq<(string, string)>)
    requires id.remotePort >= 0 && id.sshdPid >= 0 && id.startTicks >= 0
    ensures |fields| == 8
  {
    [("schema_version", "1"), ("tunnel_id", id.tunnelId), ("remote_port", Numeral(id.remotePort)),
     ("remote_user", id.remoteUser), ("sshd_pid", Numeral(id.sshdPid)), ("sshd_start_ticks", Numeral(id.startTicks)),
     ("boot_id", id.bootId), ("ssh_connection", id.connection)]
  }

  function Line(field: (string, string)): string {
    field.0 + "=" + field.1
  }

  /** One printf per field. */
  function Print(fields: seq<(string, string)>): string {
    if fields == [] then "" else Line(fields[0]) + "\n" + Print(fields[1..])
  }

  function MarkerText(id: TunnelIdentity): string
    requires id.remotePort >= 0 && id.sshdPid >= 0 && id.startTicks >= 0
  {
    Print(Fields(id))
  }

  // ---------------------------------------------------------------- reading in Python

  /** The position of the first '=', or the length. */
  function EqualsAt(line: string): (k: nat)
    ensures k <= |line| && '=' !in line[..k] && (k < |line| ==> line[k] == '=')
  {
    if line == "" || line[0] == '=' then 0
    else
      var k := EqualsAt(line[1..]);
      assert line[..k + 1] == [line[0]] + line[1..][..k];
      k + 1
  }

  /** line.partition("="), when there is a separator. */
  function Partition(line: string): Option<(string, string)> {
    var k := EqualsAt(line);
    if k < |line| then Some((line[..k], line[k + 1..])) else None
  }

  /** The value of the first line for a key. */
  function Lookup(lines: seq<string>, key: string): Option<string> {
    if lines == [] then None
    else
      var p := Partition(lines[0]);
      if p.Some? && p.value.0 == key then Some(p.value.1) else Lookup(lines[1..], key)
  }

  function IntField(lines: seq<string>, key: string): Option<int> {
    var value := Lookup(lines, key);
    if value.Some? then PyInt(value.value) else None
  }

  /** The identity that a marker's lines spell out, if it is complete and valid. */
  function ParseLines(lines: seq<string>, isAddress: string -> bool): Option<TunnelIdentity> {
    var tunnelId, user := Lookup(lines, "tunnel_id"), Lookup(lines, "remote_user");
    var port, pid := IntField(lines, "remote_port"), IntField(lines, "sshd_pid");
    var ticks := IntField(lines, "sshd_start_ticks");
    var bootId, connection := Lookup(lines, "boot_id"), Lookup(lines, "ssh_connection");
    if tunnelId.None? || port.None? || user.None? || pid.None? || ticks.None? || bootId.None?
      || connection.None? then None
    else
      var id := TunnelIdentity(tunnelId.value, port.value, user.value, pid.value, ticks.value, bootId.value,
        connection.value);
      if IsValid(id, isAddress) then Some(id) else None
  }

  function Parse(stdout: string, isAddress: string -> bool): Option<TunnelIdentity> {
    ParseLines(SplitLines(stdout), isAddress)
  }

  lemma {:induction false} LookupConcat(a: seq<string>, b: seq<string>, key: string)
    ensures Lookup(a + b, key) == if Lookup(a, key).Some? then Lookup(a, key) else Lookup(b, key)
  {
    hide Partition;
    if a == [] {
      assert a + b == b;
    } else {
      assert (a + b)[1..] == a[1..] + b;
      LookupConcat(a[1..], b, key);
    }
  }

  /** The value of the first line that starts with the key and an equals sign. */
  predicate FirstField(lines: seq<string>, key: string, value: string) {
    exists i | 0 <= i < |lines| ::
      lines[i] == key + "=" + value && forall j | 0 <= j < i :: !StartsWith(lines[j], key + "=")
  }

  lemma {:induction false} LookupExactly(lines: seq<string>, key: string, value: string)
    requires '=' !in key
    ensures Lookup(lines, key) == Some(value) <==> FirstField(lines, key, value)
  {
    hide Partition, StartsWith;
    if lines != [] {
      var line, rest := lines[0], lines[1..];
      LookupExactly(rest, key, value);
      KeyedLine(line, key, value);
      if StartsWith(line, key + "=") {
        assert FirstField(lines, key, value) ==> line == key + "=" + value by {
          if i :| 0 <= i < |lines| && lines[i] == key + "=" + value
                  && forall j | 0 <= j < i :: !StartsWith(lines[j], key + "=") {
            assert i == 0;
          }
        }
      } else {
        if FirstField(rest, key, value) {
          var i :| 0 <= i < |rest| && rest[i] == key + "=" + value
                   && forall j | 0 <= j < i :: !StartsWith(rest[j], key + "=");
          assert lines[i + 1] == rest[i];
          assert forall j | 1 <= j < i + 1 :: lines[j] == rest[j - 1];
        }
        if FirstField(lines, key, value) {
          var i :| 0 <= i < |lines| && lines[i] == key + "=" + value
                   && forall j | 0 <= j < i :: !StartsWith(lines[j], key + "=");
          assert i > 0 && rest[i - 1] == lines[i];
          assert forall j | 0 <= j < i - 1 :: rest[j] == lines[j + 1];
        }
      }
    }
  }

  /** A line is partitioned at its first equals sign. */
  lemma KeyedLine(line: string, key: string, value: string)
    requires '=' !in key
    ensures StartsWith(line, key + "=") <==> Partition(line).Some? && Partition(line).value.0 == key
    ensures Partition(line) == Some((key, value)) <==> line == key + "=" + value
    ensures line == key + "=" + value ==> StartsWith(line, key + "=")
  {
    var k := EqualsAt(line);
    if StartsWith(line, key + "=") {
      assert line[..|key| + 1] == key + "=";
      assert line == key + "=" + line[|key| + 1..];
      PartitionIs(key, line[|key| + 1..]);
    }
    if line == key + "=" + value {
      assert line[..|key| + 1] == key + "=";
      PartitionIs(key, value);
    }
    if k < |line| {
      assert line == line[..k] + "=" + line[k + 1..];
      assert line[..k + 1] == line[..k] + "=";
    }
  }

  /** A number in a field. */
  ghost predicate NumberField(lines: seq<string>, key: string, n: int) {
    exists value :: FirstField(lines, key, value) && PyInt(value) == Some(n)
  }

  /**
   Which markers spell out an identity, field by field: all seven fields are there, the first
   line of each counts, the numbers are numbers, and each value is valid. Everything else is refused.
   */
  lemma ParsesExactly(t: string, isAddress: string -> bool, id: TunnelIdentity)
    ensures Parse(t, isAddress) == Some(id) <==>
              var lines := SplitLines(t);
              && FirstField(lines, "tunnel_id", id.tunnelId) && IsUuid(id.tunnelId)
              && NumberField(lines, "remote_port", id.remotePort) && 1 <= id.remotePort <= 65535
              && FirstField(lines, "remote_user", id.remoteUser) && IsRemoteUser(id.remoteUser)
              && NumberField(lines, "sshd_pid", id.sshdPid) && id.sshdPid > 0
              && NumberField(lines, "sshd_start_ticks", id.startTicks) && id.startTicks > 0
              && FirstField(lines, "boot_id", id.bootId) && IsUuid(id.bootId)
              && FirstField(lines, "ssh_connection", id.connection) && IsConnection(id.connection, isAddress)
  {
    hide SplitLines, Lookup, FirstField, IsUuid, IsRemoteUser, IsConnection, PyInt;
    var lines := SplitLines(t);
    KeysAreNames();
    LookupExactly(lines, "tunnel_id", id.tunnelId);
    LookupExactly(lines, "remote_user", id.remoteUser);
    LookupExactly(lines, "boot_id", id.bootId);
    LookupExactly(lines, "ssh_connection", id.connection);
    NumberExactly(lines, "remote_port", id.remotePort);
    NumberExactly(lines, "sshd_pid", id.sshdPid);
    NumberExactly(lines, "sshd_start_ticks", id.startTicks);
  }

  lemma NumberExactly(lines: seq<string>, key: string, n: int)
    requires '=' !in key
    ensures IntField(lines, key) == Some(n) <==> NumberField(lines, key, n)
  {
    hide Lookup, FirstField, PyInt;
    forall value ensures Lookup(lines, key) == Some(value) <==> FirstField(lines, key, value) {
      LookupExactly(lines, key, value);
    }
  }

  lemma NothingToFind()
    ensures forall key :: Lookup([], key).None?
  {
  }

  lemma LookupOne(line: string, key: string)
    ensures Lookup([line], key) ==
            if Partition(line).Some? && Partition(line).value.0 == key then Some(Partition(line).value.1) else None
  {
    hide Partition;
  }

  /** The loop of read_tunnel_identity: the first value of each key wins. */
  method ReadFields(stdout: string) returns (fields: map<string, string>)
    ensures forall key :: key in fields <==> Lookup(SplitLines(stdout), key).Some?
    ensures forall key | key in fields :: Lookup(SplitLines(stdout), key) == Some(fields[key])
  {
    hide SplitLines, Partition, Lookup;
    var lines := SplitLines(stdout);
    fields := map[];
    assert lines[..0] == [];
    assert forall key :: Lookup([], key).None? by {
      NothingToFind();
    }
    for i := 0 to |lines|
      invariant forall key :: key in fields <==> Lookup(lines[..i], key).Some?
      invariant forall key | key in fields :: Lookup(lines[..i], key) == Some(fields[key])
    {
      assert lines[..i + 1] == lines[..i] + [lines[i]];
      forall key ensures Lookup(lines[..i + 1], key) == if Lookup(lines[..i], key).Some? then Lookup(lines[..i], key)
                                                        else Lookup([lines[i]], key) {
        LookupConcat(lines[..i], [lines[i]], key);
      }
      forall key ensures Lookup([lines[i]], key) == if Partition(lines[i]).Some? && Partition(lines[i]).value.0 == key
                                                    then Some(Partition(lines[i]).value.1) else None {
        LookupOne(lines[i], key);
      }
      var p := Partition(lines[i]);
      if p.Some? && p.value.0 !in fields {
        fields := fields[p.value.0 := p.value.1];
      }
    }
    assert lines[..|lines|] == lines;
  }

  datatype Reading = BadRequest | Unavailable | Invalid | Mismatch | Verified(id: TunnelIdentity)

  /** int(fields[key]); a missing key and a bad number end the same way. */
  method ReadInt(fields: map<string, string>, key: string) returns (n: Option<int>)
    ensures n == if key in fields then PyInt(fields[key]) else None
  {
    n := if key in fields then PyInt(fields[key]) else None;
  }

  /** The identity built from the fields and validated. */
  method BuildIdentity(fields: map<string, string>, ghost lines: seq<string>, isAddress: string -> bool)
    returns (id: Option<TunnelIdentity>)
    requires forall key :: key in fields <==> Lookup(lines, key).Some?
    requires forall key | key in fields :: Lookup(lines, key) == Some(fields[key])
    ensures id == ParseLines(lines, isAddress)
  {
    hide IsValid, Lookup, PyInt;
    var port := ReadInt(fields, "remote_port");
    var pid := ReadInt(fields, "sshd_pid");
    var ticks := ReadInt(fields, "sshd_start_ticks");
    if "tunnel_id" !in fields || port.None? || "remote_user" !in fields || pid.None? || ticks.None?
       || "boot_id" !in fields || "ssh_connection" !in fields {
      return None;
    }
    var built := TunnelIdentity(fields["tunnel_id"], port.value, fields["remote_user"], pid.value, ticks.value,
                                fields["boot_id"], fields["ssh_connection"]);
    return if IsValid(built, isAddress) then Some(built) else None;
  }

  /** read_tunnel_identity: `output` is what the remote command printed, if it ran. */
  method ReadTunnelIdentity(tunnelId: string, profilePort: int, output: Option<string>, isAddress: string -> bool)
    returns (r: Reading)
    ensures r == BadRequest <==> !IsUuid(tunnelId)
    ensures IsUuid(tunnelId) ==> (r == Unavailable <==> output.None?)
    ensures IsUuid(tunnelId) && output.Some? ==>
              var parsed := Parse(output.value, isAddress);
              && (r == Invalid <==> parsed.None?)
              && (r == Mismatch <==>
                    parsed.Some? && (parsed.value.tunnelId != tunnelId || parsed.value.remotePort != profilePort))
              && (r.Verified? ==> parsed == Some(r.id) && r.id.tunnelId == tunnelId && r.id.remotePort == profilePort)
  {
    hide IsUuid, SplitLines, Lookup, ParseLines;
    if !IsUuid(tunnelId) {
      return BadRequest;
    }
    if output.None? {
      return Unavailable;
    }
    var fields := ReadFields(output.value);
    var id := BuildIdentity(fields, SplitLines(output.value), isAddress);
    if id.None? {
      return Invalid;
    }
    return if id.value.tunnelId != tunnelId || id.value.remotePort != profilePort then Mismatch else Verified(id.value);
  }

  // ---------------------------------------------------------------- the lookup of the shell scripts

  /** The lines as sed sees them: ended by "\n" and nothing else. */
  function ShellLines(t: string): seq<string> {
    if t == "" then []
    else
      var k := NewlineAt(t);
      if k == |t| then [t] else [t[..k]] + ShellLines(t[k + 1..])
  }

  function NewlineAt(t: string): (k: nat)
    ensures k <= |t| && '\n' !in t[..k] && (k < |t| ==> t[k] == '\n')
  {
    if t == "" || t[0] == '\n' then 0
    else
      var k := NewlineAt(t[1..]);
      assert t[..k + 1] == [t[0]] + t[1..][..k];
      k + 1
  }

  /**
   Keys that the script can put into its sed expression: no '=', no line boundary, no NUL, and
   of the characters that mean something in a basic regular expression at most the dot.
   */
  predicate IsPattern(key: string) {
    forall i | 0 <= i < |key| :: !IsBreak(key[i]) && key[i] != '\0' && key[i] !in "=\\[*^$/"
  }

  /** ^key= at the start of a line, where a dot in the key stands for any character. */
  predicate MatchesPattern(line: string, key: string) {
    && |key| < |line| && line[|key|] == '='
    && forall i | 0 <= i < |key| :: key[i] == '.' || key[i] == line[i]
  }

  /** sed -n "s/^key=//p": what is left of each line that matches. */
  function Matches(lines: seq<string>, key: string): seq<string> {
    if lines == [] then []
    else
      (if MatchesPattern(lines[0], key) then [lines[0][|key| + 1..]] else []) + Matches(lines[1..], key)
  }

  /** A shell variable cannot hold a NUL character. */
  function DropNuls(s: string): (r: string)
    ensures r == s <==> '\0' !in s
    ensures '\0' !in r
    ensures forall c | c in r :: c in s
  {
    if s == "" then "" else (if s[0] == '\0' then "" else [s[0]]) + DropNuls(s[1..])
  }

  function TrimNewlines(s: string): string {
    if s != "" && s[|s| - 1] == '\n' then TrimNewlines(s[..|s| - 1]) else s
  }

  /** What $(...) keeps of an output: NUL characters and trailing newlines are dropped. */
  function Captured(output: string): string {
    TrimNewlines(DropNuls(output))
  }

  /** $(field key): the first match, printed by head -n 1 and captured. */
  function ShellField(t: string, key: string): string
    requires IsPattern(key)
  {
    var matches := Matches(ShellLines(t), key);
    Captured(if matches == [] then "" else matches[0] + "\n")
  }

  lemma NewlineIsLineEnd(t: string)
    requires OnlyNewlines(t)
    ensures LineEnd(t) == NewlineAt(t)
  {
    if t != "" && !IsBreak(t[0]) {
      NewlineIsLineEnd(t[1..]);
    }
  }

  /** On "\n"-separated text the shell and Python see the same lines. */
  lemma {:induction false} SameLines(t: string)
    requires OnlyNewlines(t)
    ensures ShellLines(t) == SplitLines(t)
    decreases |t|
  {
    hide LineEnd, NewlineAt;
    if t != "" {
      NewlineIsLineEnd(t);
      var k := LineEnd(t);
      if k < |t| {
        assert BreakLength(t, k) == 1;
        SameLines(t[k + 1..]);
      }
    }
  }

  /** Without a dot, a match on `key=` is a partition at the first '='. */
  lemma MatchIsPartition(line: string, key: string)
    requires IsPattern(key) && '.' !in key
    ensures MatchesPattern(line, key) <==> Partition(line).Some? && Partition(line).value.0 == key
    ensures MatchesPattern(line, key) ==> Partition(line) == Some((key, line[|key| + 1..]))
  {
    if MatchesPattern(line, key) {
      assert line[..|key|] == key;
      assert line == key + "=" + line[|key| + 1..];
      PartitionIs(key, line[|key| + 1..]);
    }
  }

  lemma PartitionIs(key: string, value: string)
    requires '=' !in key
    ensures Partition(key + "=" + value) == Some((key, value))
  {
    var line := key + "=" + value;
    assert line[|key|] == '=' && line[..|key|] == key && line[|key| + 1..] == value;
    assert forall i | 0 <= i < |key| :: line[i] == key[i];
    assert EqualsAt(line) == |key|;
  }

  lemma {:induction false} FirstMatchIsLookup(lines: seq<string>, key: string)
    requires IsPattern(key) && '.' !in key
    ensures Lookup(lines, key) == if Matches(lines, key) == [] then None else Some(Matches(lines, key)[0])
  {
    hide Partition;
    if lines != [] {
      MatchIsPartition(lines[0], key);
      FirstMatchIsLookup(lines[1..], key);
    }
  }

  lemma {:induction false} LookupIsInALine(lines: seq<string>, key: string)
    requires forall i | 0 <= i < |lines| :: NoBreak(lines[i])
    ensures Lookup(lines, key).Some? ==> NoBreak(Lookup(lines, key).value)
  {
    if lines != [] {
      LookupIsInALine(lines[1..], key);
    }
  }

  lemma {:induction false} DropNulsAppend(a: string, b: string)
    ensures DropNuls(a + b) == DropNuls(a) + DropNuls(b)
  {
    if a == "" {
      assert a + b == b;
    } else {
      assert (a + b)[1..] == a[1..] + b;
      DropNulsAppend(a[1..], b);
    }
  }

  lemma CapturedLine(line: string)
    requires NoBreak(line)
    ensures Captured(line + "\n") == DropNuls(line)
  {
    hide DropNuls, TrimNewlines;
    DropNulsAppend(line, "\n");
    assert NoBreak(DropNuls(line)) by {
      BreaksAreFrom(DropNuls(line), line);
    }
    TrimmedLine(DropNuls(line));
  }

  lemma BreaksAreFrom(s: string, t: string)
    requires NoBreak(t) && forall c | c in s :: c in t
    ensures NoBreak(s)
  {
    forall i | 0 <= i < |s| ensures !IsBreak(s[i]) {
      assert s[i] in t;
    }
  }

  lemma TrimmedLine(line: string)
    requires NoBreak(line)
    ensures TrimNewlines(line + "\n") == line
  {
    assert (line + "\n")[..|line|] == line;
    assert TrimNewlines(line) == line;
  }

  /** What Python finds under a key, empty when it finds nothing. */
  function PythonField(t: string, key: string): string {
    var found := Lookup(SplitLines(t), key);
    if found.Some? then found.value else ""
  }

  /**
   For any "\n"-separated text and any key without a dot, the cleanup script finds what Python
   finds without its NUL characters; the two agree exactly when there are none.
   */
  lemma LookupsAgree(t: string, key: string)
    requires OnlyNewlines(t) && IsPattern(key) && '.' !in key
    ensures ShellField(t, key) == DropNuls(PythonField(t, key))
    ensures ShellField(t, key) == PythonField(t, key) <==> '\0' !in PythonField(t, key)
  {
    hide SplitLines, Lookup, Matches, ShellLines;
    SameLines(t);
    FirstMatchIsLookup(SplitLines(t), key);
    LookupIsInALine(SplitLines(t), key);
    var matches := Matches(ShellLines(t), key);
    if matches != [] {
      CapturedLine(matches[0]);
    }
  }

  lemma {:induction false} LinesAreFromText(t: string)
    requires '\0' !in t
    ensures forall line | line in SplitLines(t) :: '\0' !in line
    decreases |t|
  {
    hide LineEnd, BreakLength;
    var k := LineEnd(t);
    if k < |t| {
      LinesAreFromText(t[k + BreakLength(t, k)..]);
    }
  }

  lemma {:induction false} LookupIsFromALine(lines: seq<string>, key: string)
    requires forall line | line in lines :: '\0' !in line
    ensures Lookup(lines, key).Some? ==> '\0' !in Lookup(lines, key).value
  {
    if lines != [] {
      assert lines[0] in lines;
      LookupIsFromALine(lines[1..], key);
      var k := EqualsAt(lines[0]);
      assert k < |lines[0]| ==> forall c | c in lines[0][k + 1..] :: c in lines[0];
    }
  }

  /** The two agree on all "\n"-separated texts without NUL characters if and only if the key has no dot. */
  lemma LookupsAgreeExactly(key: string)
    requires IsPattern(key)
    ensures (forall t | OnlyNewlines(t) && '\0' !in t :: ShellField(t, key) == PythonField(t, key)) <==> '.' !in key
  {
    hide ShellField, OnlyNewlines, SplitLines, Lookup;
    if '.' in key {
      DotMatchesAnything(key);
    } else {
      forall t | OnlyNewlines(t) && '\0' !in t ensures ShellField(t, key) == PythonField(t, key) {
        LookupsAgree(t, key);
        LinesAreFromText(t);
        LookupIsFromALine(SplitLines(t), key);
      }
    }
  }

  /** A text on which every key without a dot is read differently: the shell drops the NUL. */
  lemma NulIsDropped(key: string)
    requires IsPattern(key) && '.' !in key
    ensures var t := key + "=a\0b" + "\n";
            OnlyNewlines(t) && ShellField(t, key) == "ab" && PythonField(t, key) == "a\0b"
  {
    hide SplitLines, ShellLines, Partition, Lookup, ShellField;
    var line := key + "=a\0b";
    OneLineOfText(line);
    assert line == key + "=" + "a\0b";
    PartitionIs(key, "a\0b");
    LookupOne(line, key);
    LookupsAgree(line + "\n", key);
    assert DropNuls("a\0b") == "ab";
  }

  /** A line with its newline is a text of that one line, for sed and for Python. */
  lemma OneLineOfText(line: string)
    requires NoBreak(line)
    ensures OnlyNewlines(line + "\n") && SplitLines(line + "\n") == ShellLines(line + "\n") == [line]
  {
    hide SplitLines, ShellLines;
    var t := line + "\n";
    assert forall i | 0 <= i < |t| && IsBreak(t[i]) :: i == |line|;
    SplitLineThen(line, "");
    SplitNonEmpty("");
    assert t + "" == t;
    assert SplitLines("") == [] by {
      NothingSplit();
    }
    assert SplitLines(t) == [line];
    SameLines(t);
  }

  /** The key with every dot replaced by a letter. */
  function Dotless(key: string): (r: string)
    ensures |r| == |key| && forall i | 0 <= i < |key| :: r[i] == if key[i] == '.' then 'x' else key[i]
  {
    seq(|key|, i requires 0 <= i < |key| => if key[i] == '.' then 'x' else key[i])
  }

  /** A text on which a key with a dot finds a field in the script that Python does not find. */
  lemma DotMatchesAnything(key: string)
    requires IsPattern(key) && '.' in key
    ensures var t := Dotless(key) + "=1" + "\n";
            OnlyNewlines(t) && '\0' !in t && ShellField(t, key) == "1" && PythonField(t, key) == ""
  {
    hide SplitLines, ShellLines, Partition;
    var line := Dotless(key) + "=1";
    var t := line + "\n";
    assert forall i | 0 <= i < |key| :: line[i] == Dotless(key)[i];
    assert NoBreak(line);
    OneLineOfText(line);
    assert line[|key| + 1..] == "1";
    assert Matches([line], key) == ["1"];
    CapturedLine("1");
    assert line == Dotless(key) + "=" + "1";
    PartitionIs(Dotless(key), "1");
    var d :| 0 <= d < |key| && key[d] == '.';
    assert Dotless(key)[d] != key[d];
    LookupOne(line, key);
  }

  lemma NothingSplit()
    ensures SplitLines("") == []
  {
  }

  // ---------------------------------------------------------------- the round trip

  function Lines(fields: seq<(string, string)>): (lines: seq<string>)
    ensures |lines| == |fields| && forall i | 0 <= i < |lines| :: lines[i] == Line(fields[i])
  {
    seq(|fields|, i requires 0 <= i < |fields| => Line(fields[i]))
  }

  /** Printed fields without line boundaries are read back as lines, whatever follows. */
  lemma {:induction false} SplitPrint(fields: seq<(string, string)>, n: nat)
    requires n <= |fields| && forall i | 0 <= i < n :: NoBreak(Line(fields[i]))
    ensures SplitLines(Print(fields)) == Lines(fields[..n]) + SplitLines(Print(fields[n..]))
  {
    hide SplitLines, Line;
    if n == 0 {
      assert fields[0..] == fields;
      assert Lines(fields[..0]) == [];
    } else {
      SplitLineThen(Line(fields[0]), Print(fields[1..]));
      SplitPrint(fields[1..], n - 1);
      assert fields[1..][n - 1..] == fields[n..];
      assert Lines(fields[..n]) == [Line(fields[0])] + Lines(fields[1..][..n - 1]);
    }
  }

  /** The first of several printed fields with a key is the one found. */
  lemma {:induction false} LookupPrinted(fields: seq<(string, string)>, i: nat)
    requires i < |fields| && forall j | 0 <= j < |fields| :: '=' !in fields[j].0
    requires forall j | 0 <= j < i :: fields[j].0 != fields[i].0
    ensures Lookup(Lines(fields), fields[i].0) == Some(fields[i].1)
  {
    hide Partition;
    PartitionIs(fields[0].0, fields[0].1);
    if i > 0 {
      LookupPrinted(fields[1..], i - 1);
      assert Lines(fields)[1..] == Lines(fields[1..]);
    }
  }

  lemma {:induction false} LookupAbsent(fields: seq<(string, string)>, key: string)
    requires forall j | 0 <= j < |fields| :: '=' !in fields[j].0 && fields[j].0 != key
    ensures Lookup(Lines(fields), key) == None
  {
    hide Partition;
    if fields != [] {
      PartitionIs(fields[0].0, fields[0].1);
      LookupAbsent(fields[1..], key);
      assert Lines(fields)[1..] == Lines(fields[1..]);
    }
  }

  const KEYS: seq<string> :=
    ["schema_version", "tunnel_id", "remote_port", "remote_user",
     "sshd_pid", "sshd_start_ticks", "boot_id", "ssh_connection"]

  /** A key of lower-case letters and underscores. */
  predicate IsKeyName(s: string) {
    forall i | 0 <= i < |s| :: 'a' <= s[i] <= 'z' || s[i] == '_'
  }

  lemma KeyNameIsPlain(s: string)
    requires IsKeyName(s)
    ensures '=' !in s && NoBreak(s) && IsPattern(s) && '.' !in s
  {
  }

  lemma KeysAreNames()
    ensures |KEYS| == 8 && forall i | 0 <= i < 8 :: IsKeyName(KEYS[i])
  {
  }

  lemma KeysDiffer()
    ensures |KEYS| == 8 && forall i, j | 0 <= i < j < 8 :: KEYS[i] != KEYS[j]
  {
    assert KEYS[0][1] == 'c' && KEYS[7][1] == 's';
    assert KEYS[2][7] == 'p' && KEYS[3][7] == 'u';
  }

  lemma KeysAreDistinct()
    ensures |KEYS| == 8 && forall i, j | 0 <= i < j < 8 :: KEYS[i] != KEYS[j]
    ensures forall i | 0 <= i < 8 :: '=' !in KEYS[i] && NoBreak(KEYS[i]) && IsPattern(KEYS[i]) && '.' !in KEYS[i]
  {
    hide KEYS, IsKeyName, NoBreak, IsPattern;
    KeysAreNames();
    KeysDiffer();
    forall i | 0 <= i < 8 ensures '=' !in KEYS[i] && NoBreak(KEYS[i]) && IsPattern(KEYS[i]) && '.' !in KEYS[i] {
      KeyNameIsPlain(KEYS[i]);
    }
  }

  /** The values of a valid identity, except the connection, cannot contain a line boundary. */
  lemma ValidFieldsAreLines(id: TunnelIdentity, isAddress: string -> bool)
    requires IsValid(id, isAddress)
    ensures forall i | 0 <= i < 7 :: NoBreak(Line(Fields(id)[i]))
    ensures NoBreak(Line(Fields(id)[7])) <==> NoBreak(id.connection)
    ensures forall i | 0 <= i < 8 :: Fields(id)[i].0 == KEYS[i]
  {
    hide IsConnection, Numeral, IsUuid, IsRemoteUser, NoBreak, Line;
    KeysAreDistinct();
    NumeralNoSpace(id.remotePort);
    NumeralNoSpace(id.sshdPid);
    NumeralNoSpace(id.startTicks);
    UuidIsPlain(id.tunnelId);
    UuidIsPlain(id.bootId);
    UserIsPlain(id.remoteUser);
    OneIsPlain();
    var fields := Fields(id);
    assert forall i | 0 <= i < 8 :: fields[i].0 == KEYS[i];
    forall i | 0 <= i < 7 ensures NoBreak(Line(fields[i])) {
      assert NoBreak(fields[i].1);
      LineBreaks(fields[i]);
    }
    LineBreaks(fields[7]);
  }

  lemma UuidIsPlain(s: string)
    requires IsUuid(s)
    ensures NoBreak(s)
  {
  }

  lemma UserIsPlain(s: string)
    requires IsRemoteUser(s)
    ensures NoBreak(s)
  {
  }

  lemma OneIsPlain()
    ensures NoBreak("1")
  {
  }

  lemma LineBreaks(field: (string, string))
    requires NoBreak(field.0)
    ensures NoBreak(Line(field)) <==> NoBreak(field.1)
  {
    var line := Line(field);
    assert forall i | 0 <= i < |field.1| :: line[|field.0| + 1 + i] == field.1[i];
  }

  /** What Python finds in a printed marker: every field, and of the connection its first line. */
  lemma PrintedFields(id: TunnelIdentity, isAddress: string -> bool, i: nat)
    requires IsValid(id, isAddress) && i < 8
    ensures Lookup(SplitLines(MarkerText(id)), KEYS[i]) ==
            Some(if i < 7 then Fields(id)[i].1 else id.connection[..LineEnd(id.connection)])
  {
    hide SplitLines, Lookup, IsUuid, IsRemoteUser, IsConnection, LineEnd, Print, Numeral;
    var fields := Fields(id);
    ValidFieldsAreLines(id, isAddress);
    KeysAreDistinct();
    SplitPrint(fields, 7);
    var first := fields[..7];
    LookupConcat(Lines(first), SplitLines(Print(fields[7..])), KEYS[i]);
    if i < 7 {
      LookupPrinted(first, i);
    } else {
      LookupAbsent(first, KEYS[7]);
      LastField(fields[7]);
      assert fields[7..] == [fields[7]];
    }
  }

  /** Of a printed field, the first line is found under its key. */
  lemma LastField(field: (string, string))
    requires NoBreak(field.0) && '=' !in field.0
    ensures Lookup(SplitLines(Print([field])), field.0) == Some(field.1[..LineEnd(field.1)])
  {
    hide Lookup, Partition, LineEnd;
    var (key, value) := field;
    var k := LineEnd(value);
    var head := key + "=" + value[..k];
    var tail := value[k..] + "\n";
    assert Print([field]) == head + tail by {
      assert Print([]) == "";
      assert value == value[..k] + value[k..];
    }
    assert NoBreak(head) && IsBreak(tail[0]);
    LineEndIs(head, tail);
    var lines := SplitLines(head + tail);
    assert (head + tail)[..|head|] == head;
    assert lines[0] == head;
    assert lines == [head] + lines[1..];
    LookupConcat([head], lines[1..], key);
    LookupOne(head, key);
    PartitionIs(key, value[..k]);
  }

  lemma WholeWhenUnbroken(s: string)
    ensures s[..LineEnd(s)] == s <==> NoBreak(s)
  {
    assert NoBreak(s) ==> LineEnd(s) == |s| by {
      assert s + "" == s;
      if NoBreak(s) {
        LineEndIs(s, "");
      }
    }
  }

  /**
   The round trip, exactly: a valid identity is read back from its printed marker, through a
   text-mode pipe, if and only if its SSH_CONNECTION value has no line boundary in it.
   */
  lemma MarkerRoundTrip(id: TunnelIdentity, isAddress: string -> bool)
    requires IsValid(id, isAddress)
    ensures Parse(Universal(MarkerText(id)), isAddress) == Some(id) <==> NoBreak(id.connection)
  {
    hide SplitLines, Lookup, IsUuid, IsRemoteUser, IsConnection, LineEnd, MarkerText, NoBreak, PyInt, Numeral,
      Universal;
    UniversalSameLines(MarkerText(id));
    forall i | 0 <= i < 8
      ensures Lookup(SplitLines(MarkerText(id)), KEYS[i]) ==
              Some(if i < 7 then Fields(id)[i].1 else id.connection[..LineEnd(id.connection)])
    {
      PrintedFields(id, isAddress, i);
    }
    WholeWhenUnbroken(id.connection);
    if id.connection[..LineEnd(id.connection)] == id.connection {
      FoundIsParsed(SplitLines(MarkerText(id)), id, isAddress);
    } else {
      assert Lookup(SplitLines(MarkerText(id)), KEYS[7]) != Some(id.connection);
    }
  }

  // ---------------------------------------------------------------- text mode, and the cleanup script's checks

  lemma {:induction false} UniversalPrefix(a: string, rest: string)
    requires NoBreak(a)
    ensures Universal(a + rest) == a + Universal(rest)
  {
    if a == "" {
      assert a + rest == rest;
    } else {
      assert (a + rest)[1..] == a[1..] + rest;
      UniversalPrefix(a[1..], rest);
    }
  }

  lemma UniversalBreak(b: string, rest: string)
    requires BreakText(b) && !(b == "\r" && rest != "" && rest[0] == '\n')
    ensures Universal(b + rest) == (if b[0] == '\r' then "\n" else b) + Universal(rest)
  {
    assert (b + rest)[|b|..] == rest;
  }

  /** Reading in text mode does not change the lines, so it does not change what is parsed. */
  lemma {:induction false} UniversalSameLines(t: string)
    ensures SplitLines(Universal(t)) == SplitLines(t)
    decreases |t|
  {
    hide SplitLines, LineEnd, Universal, NoBreak, IsBreak;
    if LineEnd(t) == |t| {
      Unbroken(t);
      UniversalPrefix(t, "");
      EmptyUniversal();
      assert t + "" == t;
    } else {
      var a, b, rest := Decompose(t);
      SplitUnit(a, b, rest);
      UniversalSameLines(rest);
      UniversalPrefix(a, b + rest);
      UniversalBreak(b, rest);
      var c := if b[0] == '\r' then "\n" else b;
      assert t == a + (b + rest);
      assert Universal(t) == a + c + Universal(rest);
      NewBreak(b);
      SplitUnit(a, c, Universal(rest));
    }
  }

  lemma EmptyUniversal()
    ensures Universal("") == ""
  {
  }

  lemma NewBreak(b: string)
    requires BreakText(b)
    ensures var c := if b[0] == '\r' then "\n" else b; BreakText(c) && c != "\r"
  {
  }

  /** The comparisons of _build_identity_validation_command: every field but the schema version. */
  ghost predicate ChecksPass(t: string, id: TunnelIdentity)
    requires id.remotePort >= 0 && id.sshdPid >= 0 && id.startTicks >= 0
  {
    forall i | 1 <= i < 8 :: IsPattern(KEYS[i]) && ShellField(t, KEYS[i]) == Fields(id)[i].1
  }

  /**
   What the cleanup script accepts as an identity, Python would read as that identity, if and
   only if none of the values found has a NUL character.
   */
  lemma CheckedIsParsed(t: string, id: TunnelIdentity, isAddress: string -> bool)
    requires IsValid(id, isAddress) && OnlyNewlines(t) && ChecksPass(t, id)
    ensures Parse(t, isAddress) == Some(id) <==> forall i | 1 <= i < 8 :: '\0' !in PythonField(t, KEYS[i])
  {
    hide SplitLines, Lookup, IsUuid, IsRemoteUser, IsConnection, ShellField, PyInt, Numeral, OnlyNewlines;
    hide DropNuls;
    var lines := SplitLines(t);
    ValidFieldsAreFilled(id, isAddress);
    KeysAreDistinct();
    forall i | 1 <= i < 8
      ensures Lookup(lines, KEYS[i]).Some? && Fields(id)[i].1 == DropNuls(PythonField(t, KEYS[i]))
    {
      LookupsAgree(t, KEYS[i]);
    }
    if Parse(t, isAddress) == Some(id) {
      ParsedHasNoNul(lines, id, isAddress);
    } else if forall i | 1 <= i < 8 :: '\0' !in PythonField(t, KEYS[i]) {
      FoundIsParsed(lines, id, isAddress);
    }
  }

  /** int() refuses a NUL character. */
  lemma {:induction false} StripKeepsNul(s: string)
    ensures '\0' in s ==> '\0' in Strip(s)
  {
    if s != "" && IsSpace(s[0]) {
      StripKeepsNul(s[1..]);
    } else if s != "" && IsSpace(s[|s| - 1]) {
      StripKeepsNul(s[..|s| - 1]);
    }
  }

  lemma NumberHasNoNul(s: string)
    requires PyInt(s).Some?
    ensures '\0' !in s
  {
    hide Strip, DigitsValue, WithoutUnderscores;
    StripKeepsNul(s);
  }

  /** What parses as an identity that the script's comparisons accept has no NUL character. */
  lemma ParsedHasNoNul(lines: seq<string>, id: TunnelIdentity, isAddress: string -> bool)
    requires IsValid(id, isAddress) && ParseLines(lines, isAddress) == Some(id)
    requires forall i | 1 <= i < 8 :: Lookup(lines, KEYS[i]).Some?
                                      && Fields(id)[i].1 == DropNuls(Lookup(lines, KEYS[i]).value)
    ensures forall i | 1 <= i < 8 :: '\0' !in Lookup(lines, KEYS[i]).value
  {
    hide Lookup, IsUuid, IsRemoteUser, IsConnection, PyInt, Numeral;
    NumberHasNoNul(Lookup(lines, KEYS[2]).value);
    NumberHasNoNul(Lookup(lines, KEYS[4]).value);
    NumberHasNoNul(Lookup(lines, KEYS[5]).value);
    assert Lookup(lines, KEYS[1]) == Some(id.tunnelId);
    assert Lookup(lines, KEYS[3]) == Some(id.remoteUser);
    assert Lookup(lines, KEYS[6]) == Some(id.bootId);
    assert Lookup(lines, KEYS[7]) == Some(id.connection);
  }

  lemma ValidFieldsAreFilled(id: TunnelIdentity, isAddress: string -> bool)
    requires IsValid(id, isAddress)
    ensures forall i | 1 <= i < 8 :: Fields(id)[i].1 != ""
  {
    hide IsPort, Numeral;
    assert Words("") == [];
  }

  /** Lines that carry an identity's fields parse to it. */
  lemma FoundIsParsed(lines: seq<string>, id: TunnelIdentity, isAddress: string -> bool)
    requires IsValid(id, isAddress)
    requires forall i | 1 <= i < 8 :: Lookup(lines, KEYS[i]) == Some(Fields(id)[i].1)
    ensures ParseLines(lines, isAddress) == Some(id)
  {
    hide Lookup, IsUuid, IsRemoteUser, IsConnection, PyInt, Numeral;
    PyIntRoundTrip(id.remotePort);
    PyIntRoundTrip(id.sshdPid);
    PyIntRoundTrip(id.startTicks);
    assert Lookup(lines, KEYS[1]) == Some(id.tunnelId);
    assert Lookup(lines, KEYS[2]) == Some(Numeral(id.remotePort));
    assert Lookup(lines, KEYS[3]) == Some(id.remoteUser);
    assert Lookup(lines, KEYS[4]) == Some(Numeral(id.sshdPid));
    assert Lookup(lines, KEYS[5]) == Some(Numeral(id.startTicks));
    assert Lookup(lines, KEYS[6]) == Some(id.bootId);
    assert Lookup(lines, KEYS[7]) == Some(id.connection);
  }

  /** A freshly printed marker passes all the checks of the cleanup script, unless the connection has a NUL in it. */
  lemma PrintedPassesChecks(id: TunnelIdentity, isAddress: string -> bool)
    requires IsValid(id, isAddress) && NoBreak(id.connection)
    ensures OnlyNewlines(MarkerText(id)) && (ChecksPass(MarkerText(id), id) <==> '\0' !in id.connection)
  {
    hide Lookup, SplitLines, IsUuid, IsRemoteUser, IsConnection, Numeral, NoBreak, LineEnd;
    hide ShellField, Print, OnlyNewlines, Line, DropNuls;
    ValidFieldsAreLines(id, isAddress);
    ValidFieldsHaveNoNul(id, isAddress);
    PrintOnlyNewlines(Fields(id));
    KeysAreDistinct();
    WholeWhenUnbroken(id.connection);
    forall i | 1 <= i < 8
      ensures ShellField(MarkerText(id), KEYS[i]) == Fields(id)[i].1 <==> '\0' !in Fields(id)[i].1
    {
      PrintedFields(id, isAddress, i);
      LookupsAgree(MarkerText(id), KEYS[i]);
    }
    assert Fields(id)[7].1 == id.connection;
  }

  lemma ValidFieldsHaveNoNul(id: TunnelIdentity, isAddress: string -> bool)
    requires IsValid(id, isAddress)
    ensures forall i | 0 <= i < 7 :: '\0' !in Fields(id)[i].1
  {
    hide IsConnection, Numeral;
    UuidHasNoNul(id.tunnelId);
    UuidHasNoNul(id.bootId);
  }

  lemma UuidHasNoNul(s: string)
    requires IsUuid(s)
    ensures '\0' !in s
  {
    assert forall i | 0 <= i < |s| :: s[i] != '\0';
  }

  lemma {:induction false} PrintOnlyNewlines(fields: seq<(string, string)>)
    requires forall i | 0 <= i < |fields| :: NoBreak(Line(fields[i]))
    ensures OnlyNewlines(Print(fields))
  {
    hide Line;
    if fields != [] {
      PrintOnlyNewlines(fields[1..]);
      var line, rest := Line(fields[0]), Print(fields[1..]);
      var t := line + "\n" + rest;
      assert forall i | 0 <= i < |line| :: t[i] == line[i];
      assert forall i | |line| + 1 <= i < |t| :: t[i] == rest[i - |line| - 1];
    }
  }

  // -------------------------------------------------- a concrete identity, with and without a line boundary

  /** SSH_CONNECTION values are four words; validation does not care which white space separates them. */
  lemma ConnectionIsValid(source: string, sourcePort: nat, c: char, target: string, targetPort: nat,
      isAddress: string -> bool)
    requires source != "" && NoSpace(source) && isAddress(source) && 1 <= sourcePort <= 65535
    requires target != "" && NoSpace(target) && isAddress(target) && 1 <= targetPort <= 65535
    requires IsSpace(c)
    ensures IsConnection(source + " " + Numeral(sourcePort) + [c] + target + " " + Numeral(targetPort), isAddress)
  {
    hide Words, Numeral, PyInt;
    var s, t := Numeral(sourcePort), Numeral(targetPort);
    NumeralNoSpace(sourcePort);
    NumeralNoSpace(targetPort);
    PyIntRoundTrip(sourcePort);
    PyIntRoundTrip(targetPort);
    assert source + " " + s + [c] + target + " " + t == source + " " + (s + [c] + (target + " " + t));
    WordsSpaced(source, s + [c] + (target + " " + t));
    WordsSeparated(s, c, target + " " + t);
    WordsSpaced(target, t);
    WordsOne(t);
  }

  const NIL_UUID := "00000000-0000-0000-0000-000000000000"

  function Example(c: char): TunnelIdentity {
    TunnelIdentity(NIL_UUID, 17890, "dev", 4321, 98765, NIL_UUID,
                   "10.0.0.1" + " " + Numeral(50000) + [c] + "10.0.0.2" + " " + Numeral(22))
  }

  lemma NilIsUuid()
    ensures IsUuid(NIL_UUID)
  {
  }

  lemma ExampleIsValid(c: char, isAddress: string -> bool)
    requires IsSpace(c) && isAddress("10.0.0.1") && isAddress("10.0.0.2")
    ensures IsValid(Example(c), isAddress)
  {
    hide IsConnection, Numeral, IsUuid, IsPort, NIL_UUID;
    NilIsUuid();
    assert NoSpace("10.0.0.1") && NoSpace("10.0.0.2");
    ConnectionIsValid("10.0.0.1", 50000, c, "10.0.0.2", 22, isAddress);
  }

  lemma ExampleBreaks(c: char)
    ensures NoBreak(Example(c).connection) <==> !IsBreak(c)
  {
    hide Numeral, IsBreak;
    NumeralNoSpace(50000);
    NumeralNoSpace(22);
    PlainParts();
    var first, last := "10.0.0.1" + " " + Numeral(50000), "10.0.0.2" + " " + Numeral(22);
    NoBreakConcat("10.0.0.1" + " ", Numeral(50000));
    NoBreakConcat("10.0.0.2" + " ", Numeral(22));
    assert Example(c).connection == first + [c] + last;
    assert (first + [c] + last)[|first|] == c;
    if !IsBreak(c) {
      NoBreakConcat(first, [c]);
      NoBreakConcat(first + [c], last);
    }
  }

  lemma PlainParts()
    ensures NoBreak("10.0.0.1" + " ") && NoBreak("10.0.0.2" + " ")
  {
  }

  /** One identity that is valid and comes back, and one that is valid and does not. */
  lemma SpaceSurvivesNewlineDoesNot(isAddress: string -> bool)
    requires isAddress("10.0.0.1") && isAddress("10.0.0.2")
    ensures IsValid(Example(' '), isAddress)
              && Parse(Universal(MarkerText(Example(' '))), isAddress) == Some(Example(' '))
    ensures IsValid(Example('\n'), isAddress)
              && Parse(Universal(MarkerText(Example('\n'))), isAddress) != Some(Example('\n'))
  {
    hide IsUuid, IsRemoteUser, IsConnection, Parse, MarkerText, Universal, NoBreak, Numeral, NIL_UUID;
    ExampleIsValid(' ', isAddress);
    ExampleIsValid('\n', isAddress);
    MarkerRoundTrip(Example(' '), isAddress);
    MarkerRoundTrip(Example('\n'), isAddress);
    ExampleBreaks(' ');
    ExampleBreaks('\n');
  }
}

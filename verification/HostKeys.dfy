/** The managed known_hosts file (app/infrastructure/host_key_store.py). */
module HostKeys {
  import opened Wrappers
  import opened Text
  import opened Decimals
  import opened SetupErrors

  datatype HostKeyInfo = HostKeyInfo(host: string, port: nat, keyType: string, fingerprint: string, keyBase64: string)

  datatype HostStatus = Unknown | Confirmed

  /** HostKeyInfo.host_token. */
  function HostToken(host: string, port: nat): string {
    if port == 22 then host else "[" + host + "]:" + Numeral(port)
  }

  function KnownHostLine(info: HostKeyInfo): string {
    HostToken(info.host, info.port) + " " + info.keyType + " " + info.keyBase64
  }

  /**
   How known_hosts tokens are read: a bare name means port 22, and a name in brackets is followed
   by a colon and its port.
   */
  function ReadToken(token: string): Option<(string, nat)> {
    if token == "" || token[0] != '[' then Some((token, 22))
    else
      var k := BracketAt(token);
      if k + 1 < |token| && token[k + 1] == ':' && ParseNumeral(token[k + 2..]).Some?
      then Some((token[1..k], ParseNumeral(token[k + 2..]).value))
      else None
  }

  /** The position of the first ']', or the length. */
  function BracketAt(t: string): (k: nat)
    ensures k <= |t| && ']' !in t[..k] && (k < |t| ==> t[k] == ']')
    ensures t != "" && t[0] == '[' ==> k >= 1
  {
    if t == "" || t[0] == ']' then 0
    else
      var k := BracketAt(t[1..]);
      assert t[..k + 1] == [t[0]] + t[1..][..k];
      k + 1
  }

  /** The token of a host and port is read as that host and that port. */
  lemma TokenReadsBack(host: string, port: nat)
    requires IsHost(host)
    ensures ReadToken(HostToken(host, port)) == Some((host, port))
  {
    hide Numeral, ParseNumeral;
    var token := HostToken(host, port);
    if port != 22 {
      NumeralRoundTrip(port);
      assert token == ("[" + host) + ("]:" + Numeral(port));
      assert token[|host| + 1] == ']' && token[|host| + 2] == ':';
      assert forall i | 0 <= i < |host| :: token[i + 1] == host[i] && host[i] != ']';
      assert BracketAt(token) == |host| + 1;
      assert token[|host| + 3..] == Numeral(port);
      assert token[1..|host| + 1] == host;
    }
  }

  /** Different hosts or ports have different tokens. */
  lemma TokensDiffer(host: string, port: nat, other: string, otherPort: nat)
    requires IsHost(host) && IsHost(other)
    ensures HostToken(host, port) == HostToken(other, otherPort) <==> host == other && port == otherPort
  {
    hide HostToken, ReadToken;
    TokenReadsBack(host, port);
    TokenReadsBack(other, otherPort);
  }

  /** A line of one host leaves the entries of every other host and port as they are. */
  lemma OthersKeepTheirEntries(lines: seq<string>, info: HostKeyInfo, host: string, port: nat)
    requires IsHost(info.host) && IsValidKey(info) && info.keyBase64 != "" && IsHost(host)
    requires host != info.host || port != info.port
    ensures Entries(lines + [KnownHostLine(info)], HostToken(host, port)) == Entries(lines, HostToken(host, port))
  {
    hide HostToken, Words;
    TokensDiffer(host, port, info.host, info.port);
    FirstWordIsTheToken(info);
    assert (lines + [KnownHostLine(info)])[..|lines|] == lines;
  }

  /** The first word of a line is the token of its host and port. */
  lemma FirstWordIsTheToken(info: HostKeyInfo)
    requires IsHost(info.host) && IsValidKey(info) && info.keyBase64 != ""
    ensures Words(KnownHostLine(info)) == [HostToken(info.host, info.port), info.keyType, info.keyBase64]
    ensures ReadToken(Words(KnownHostLine(info))[0]) == Some((info.host, info.port))
  {
    hide HostToken, ReadToken, Words;
    HostTokenIsAWord(info.host, info.port);
    KeyTypeIsAWord(info.keyType);
    Base64NoSpace(info.keyBase64);
    ThreeWords(HostToken(info.host, info.port), info.keyType, info.keyBase64);
    TokenReadsBack(info.host, info.port);
  }

  predicate IsWordChar(c: char) {
    'A' <= c <= 'Z' || 'a' <= c <= 'z' || '0' <= c <= '9'
  }

  /** HOST_RE. */
  predicate IsHost(host: string) {
    && 1 <= |host| <= 253 && IsWordChar(host[0])
    && forall i | 0 <= i < |host| :: IsWordChar(host[i]) || host[i] == '.' || host[i] == '-'
  }

  /** HOST_KEY_TYPE_RE. */
  predicate IsKeyType(t: string) {
    && 1 <= |t| <= 128 && IsWordChar(t[0])
    && forall i | 0 <= i < |t| :: IsWordChar(t[i]) || t[i] in "@._+-"
  }

  /** HostKeyStore._validate_key. */
  predicate IsValidKey(info: HostKeyInfo) {
    IsKeyType(info.keyType) && IsBase64(info.keyBase64)
  }

  /** The (type, key) pairs recorded for a host token: _entries_for as a function. */
  function Entries(lines: seq<string>, token: string): seq<(string, string)> {
    if lines == [] then []
    else
      var parts := Words(lines[|lines| - 1]);
      Entries(lines[..|lines| - 1], token)
      + (if |parts| >= 3 && parts[0] == token then [(parts[1], parts[2])] else [])
  }

  /** The lines of the file that _read_lines keeps. */
  function LinesOf(file: Option<string>): (lines: seq<string>)
    ensures forall i | 0 <= i < |lines| :: NoBreak(lines[i]) && Strip(lines[i]) != ""
  {
    if file.None? then [] else NonBlank(SplitLines(file.value))
  }

  /** The lines read are exactly the lines of the file that are not blank, in their order. */
  lemma LinesOfExactly(text: string, line: string)
    ensures line in LinesOf(Some(text)) <==> line in SplitLines(text) && Strip(line) != ""
    ensures forall more: string | text == "" || EndsWithNewline(text) ::
              LinesOf(Some(text + more)) == LinesOf(Some(text)) + LinesOf(Some(more))
    ensures LinesOf(None) == []
  {
    hide SplitLines, Strip;
    NonBlankKeeps(SplitLines(text), line);
    forall more: string | text == "" || EndsWithNewline(text)
      ensures LinesOf(Some(text + more)) == LinesOf(Some(text)) + LinesOf(Some(more))
    {
      SplitAppend(text, more);
      NonBlankConcat(SplitLines(text), SplitLines(more));
    }
  }

  lemma {:induction false} NonBlankKeeps(lines: seq<string>, line: string)
    ensures line in NonBlank(lines) <==> line in lines && Strip(line) != ""
  {
    hide Strip;
    if lines != [] {
      NonBlankKeeps(lines[1..], line);
      assert lines == [lines[0]] + lines[1..];
    }
  }

  lemma HostTokenIsAWord(host: string, port: nat)
    requires IsHost(host)
    ensures HostToken(host, port) != "" && NoSpace(HostToken(host, port))
  {
    NumeralNoSpace(port);
    assert NoSpace(host);
  }

  lemma KeyTypeIsAWord(t: string)
    requires IsKeyType(t)
    ensures t != "" && NoSpace(t)
  {
  }

  /** A confirmed line is one clean line, and reading it back gives its entry. */
  lemma LineReadsBack(lines: seq<string>, info: HostKeyInfo)
    requires IsHost(info.host) && IsValidKey(info) && info.keyBase64 != ""
    ensures NoBreak(KnownHostLine(info)) && Strip(KnownHostLine(info)) == KnownHostLine(info) != ""
    ensures var token := HostToken(info.host, info.port);
            Entries(lines + [KnownHostLine(info)], token) == Entries(lines, token) + [(info.keyType, info.keyBase64)]
  {
    var token := HostToken(info.host, info.port);
    HostTokenIsAWord(info.host, info.port);
    KeyTypeIsAWord(info.keyType);
    Base64NoSpace(info.keyBase64);
    ThreeWords(token, info.keyType, info.keyBase64);
    ThreeWordsAreALine(token, info.keyType, info.keyBase64);
    assert (lines + [KnownHostLine(info)])[..|lines|] == lines;
  }

  /** A line of a host that has no entry is not in the file. */
  lemma UnknownMeansAbsent(lines: seq<string>, info: HostKeyInfo)
    requires IsHost(info.host) && IsValidKey(info) && info.keyBase64 != ""
    requires Entries(lines, HostToken(info.host, info.port)) == []
    ensures KnownHostLine(info) !in lines
  {
    if lines != [] {
      UnknownMeansAbsent(lines[..|lines| - 1], info);
      LineReadsBack([], info);
      assert [] + [KnownHostLine(info)] == [KnownHostLine(info)];
      LineReadsBack(lines[..|lines| - 1], info);
      assert lines == lines[..|lines| - 1] + [lines[|lines| - 1]];
    }
  }

  /** Written lines are read back unchanged. */
  lemma WriteThenRead(lines: seq<string>)
    requires forall i | 0 <= i < |lines| :: NoBreak(lines[i]) && Strip(lines[i]) != ""
    ensures LinesOf(Some(Render(lines))) == lines
  {
    SplitRender(lines);
    NonBlankAll(lines);
  }

  /**
   How the reads and writes of one trust decision end: the first status, those of `confirm`, and
   those of `remove_if_matches`.
   */
  datatype HostFaults = HostFaults(status: Fault, again: Fault, last: Fault, write: Fault, undoRead: Fault,
                                   undoWrite: Fault)

  class HostKeyStore {
    var file: Option<string>

    function Lines(): (lines: seq<string>)
      reads this
    {
      LinesOf(file)
    }

    constructor (file: Option<string>)
      ensures this.file == file
    {
      this.file := file;
    }

    /** _read_lines; the file may be unreadable. */
    method ReadLines(f: Fault) returns (r: Result<seq<string>>)
      ensures r == if f.Fine? then Ok(Lines())
                   else if f.Refused? then Err(KnownHostsUnavailable) else Err(Escaped(Elsewhere))
    {
      r := match f case Fine => Ok(Lines()) case Refused => Err(KnownHostsUnavailable)
        case Escapes => Err(Escaped(Elsewhere));
    }

    /** _write_lines: the whole file is replaced, or nothing happens. */
    method WriteLines(lines: seq<string>, f: Fault) returns (r: Result<()>)
      requires forall i | 0 <= i < |lines| :: NoBreak(lines[i]) && Strip(lines[i]) != ""
      modifies this
      ensures r.Ok? ==> Lines() == lines
      ensures r.Ok? <==> f.Fine?
      ensures r.Err? ==> file == old(file) && r.error in {KnownHostsWriteFailed, Escaped(Elsewhere)}
    {
      if !f.Fine? {
        return Err(if f.Refused? then KnownHostsWriteFailed else Escaped(Elsewhere));
      }
      WriteThenRead(lines);
      file := Some(Render(lines));
      return Ok(());
    }

    /** _entries_for. */
    method EntriesFor(token: string, f: Fault) returns (r: Result<seq<(string, string)>>)
      ensures r.Ok? <==> f.Fine?
      ensures r.Ok? ==> r.value == Entries(Lines(), token)
      ensures r.Err? ==> r.error in {KnownHostsUnavailable, Escaped(Elsewhere)}
    {
      var read := ReadLines(f);
      if read.Err? {
        return Err(read.error);
      }
      var lines, entries := read.value, [];
      for i := 0 to |lines|
        invariant entries == Entries(lines[..i], token)
      {
        assert lines[..i + 1][..i] == lines[..i];
        var parts := Words(lines[i]);
        if |parts| >= 3 && parts[0] == token {
          entries := entries + [(parts[1], parts[2])];
        }
      }
      assert lines[..|lines|] == lines;
      return Ok(entries);
    }

    /** HostKeyStore.status. */
    method Status(info: HostKeyInfo, f: Fault) returns (r: Result<HostStatus>)
      ensures r.Ok? ==> IsValidKey(info)
      ensures r == Ok(Unknown) ==> Entries(Lines(), HostToken(info.host, info.port)) == []
      ensures r == Ok(Confirmed) ==>
                (info.keyType, info.keyBase64) in Entries(Lines(), HostToken(info.host, info.port))
      ensures r == Err(HostKeyChanged) ==>
                && Entries(Lines(), HostToken(info.host, info.port)) != []
                && (info.keyType, info.keyBase64) !in Entries(Lines(), HostToken(info.host, info.port))
      ensures r == Err(HostKeyInvalid) <==> !IsValidKey(info)
      ensures r.Err? ==> r.error in {HostKeyInvalid, HostKeyChanged, KnownHostsUnavailable, Escaped(Elsewhere)}
      ensures r.Err? && r.error in {KnownHostsUnavailable, Escaped(Elsewhere)} <==> IsValidKey(info) && !f.Fine?
    {
      if !IsValidKey(info) {
        return Err(HostKeyInvalid);
      }
      var matches := EntriesFor(HostToken(info.host, info.port), f);
      if matches.Err? {
        return Err(matches.error);
      }
      if matches.value == [] {
        return Ok(Unknown);
      }
      if (info.keyType, info.keyBase64) in matches.value {
        return Ok(Confirmed);
      }
      return Err(HostKeyChanged);
    }

    /** HostKeyStore.confirm: adds one line for a host that had none; true when it was added. */
    method Confirm(info: HostKeyInfo, accepted: bool, f: HostFaults) returns (r: Result<bool>)
      requires IsHost(info.host) && info.keyBase64 != ""
      modifies this
      ensures r.Err? || r == Ok(false) ==> file == old(file)
      ensures !accepted ==> r == Err(HostKeyRejected)
      ensures r == Ok(true) ==>
                && IsValidKey(info)
                && old(Entries(Lines(), HostToken(info.host, info.port))) == []
                && Lines() == old(Lines()) + [KnownHostLine(info)]
                && ReadToken(Words(KnownHostLine(info))[0]) == Some((info.host, info.port))
      ensures r == Ok(true) ==>
                forall host, port: nat | IsHost(host) && (host != info.host || port != info.port) ::
                  Entries(Lines(), HostToken(host, port)) == Entries(old(Lines()), HostToken(host, port))
      ensures r == Ok(false) ==>
                (info.keyType, info.keyBase64) in Entries(Lines(), HostToken(info.host, info.port))
      ensures (&& accepted && IsValidKey(info) && f.again.Fine? && f.last.Fine? && f.write.Fine?
               && old(Entries(Lines(), HostToken(info.host, info.port))) == []) ==> r == Ok(true)
      ensures r == Err(HostKeyChanged) ==>
                && old(Entries(Lines(), HostToken(info.host, info.port))) != []
                && (info.keyType, info.keyBase64) !in old(Entries(Lines(), HostToken(info.host, info.port)))
      ensures accepted && IsValidKey(info) && f.again.Fine? && f.last.Fine? && f.write.Fine? ==>
                r.Ok? || r == Err(HostKeyChanged)
      ensures r == Ok(true) ==> f.again.Fine? && f.last.Fine? && f.write.Fine?
      ensures r.Err? ==>
                r.error in {HostKeyRejected, HostKeyInvalid, HostKeyChanged, KnownHostsUnavailable,
                            KnownHostsWriteFailed, Escaped(Elsewhere)}
    {
      hide HostToken, KnownHostLine, ReadToken, Words, IsHost, IsValidKey, Entries, LinesOf;
      if !accepted {
        return Err(HostKeyRejected);
      }
      var status := Status(info, f.again);
      if status.Err? {
        return Err(status.error);
      }
      if status.value == Confirmed {
        return Ok(false);
      }
      var lines := ReadLines(f.last);
      if lines.Err? {
        return Err(lines.error);
      }
      LineReadsBack(lines.value, info);
      FirstWordIsTheToken(info);
      forall host, port: nat | IsHost(host) && (host != info.host || port != info.port)
        ensures Entries(lines.value + [KnownHostLine(info)], HostToken(host, port)) ==
                Entries(lines.value, HostToken(host, port))
      {
        OthersKeepTheirEntries(lines.value, info, host, port);
      }
      var written := WriteLines(lines.value + [KnownHostLine(info)], f.write);
      return if written.Err? then Err(written.error) else Ok(true);
    }

    /** HostKeyStore.remove_if_matches: removes the first line that is exactly this key's. */
    method RemoveIfMatches(info: HostKeyInfo, f: HostFaults) returns (r: Result<bool>)
      modifies this
      ensures r.Err? || r == Ok(false) ==> file == old(file)
      ensures r.Ok? ==> (r.value <==> KnownHostLine(info) in old(Lines()))
      ensures f.undoRead.Fine? && f.undoWrite.Fine? ==> r.Ok?
      ensures r == Ok(true) ==>
                exists i :: IndexOf(old(Lines()), KnownHostLine(info)) == Some(i) && Lines() == Without(old(Lines()), i)
    {
      var lines := ReadLines(f.undoRead);
      if lines.Err? {
        return Err(lines.error);
      }
      var i := IndexOf(lines.value, KnownHostLine(info));
      if i.None? {
        return Ok(false);
      }
      var written := WriteLines(Without(lines.value, i.value), f.undoWrite);
      return if written.Err? then Err(written.error) else Ok(true);
    }
  }

  /** Rolling a confirmation back restores the line list. */
  lemma ConfirmThenRemove(before: seq<string>, info: HostKeyInfo, i: nat)
    requires IsHost(info.host) && IsValidKey(info) && info.keyBase64 != ""
    requires Entries(before, HostToken(info.host, info.port)) == []
    requires IndexOf(before + [KnownHostLine(info)], KnownHostLine(info)) == Some(i)
    ensures Without(before + [KnownHostLine(info)], i) == before
  {
    UnknownMeansAbsent(before, info);
    assert (before + [KnownHostLine(info)])[i] == KnownHostLine(info);
  }
}

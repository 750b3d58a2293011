/** The managed SSH key pairs on this machine (app/infrastructure/ssh_key_store.py). */
module KeyStores {
  import opened Wrappers
  import opened Text
  import opened AuthorizedKeys
  import opened SetupErrors

  const KEY_COMMENT_PREFIX := "remote-ai-bridge:"

  datatype KeyPair = KeyPair(keyId: string, publicKey: string, generated: bool)

  /** KEY_ID_RE. */
  predicate IsKeyId(id: string) {
    |id| == 32 && forall i | 0 <= i < |id| :: '0' <= id[i] <= '9' || 'a' <= id[i] <= 'f'
  }

  /** _read_and_validate_pair on the text of a public key file: ASCII, read in text mode. */
  function KeyValue(content: string, id: string): Option<string> {
    var value := Strip(Universal(content));
    var parts := Words(value);
    if && IsAscii(content)
       && |parts| == 3 && parts[0] == "ssh-ed25519" && parts[2] == KEY_COMMENT_PREFIX + id && IsBase64(parts[1])
    then Some(value) else None
  }

  /** The public key ssh-keygen makes, and the file it writes. */
  function GeneratedKey(body: string, id: string): string {
    "ssh-ed25519 " + body + " " + (KEY_COMMENT_PREFIX + id)
  }

  function GeneratedFile(body: string, id: string): string {
    GeneratedKey(body, id) + "\n"
  }

  /** A validated public key carries a key identity. */
  lemma ValidKeyHasIdentity(content: string, id: string)
    requires KeyValue(content, id).Some?
    ensures KeyIdentity(KeyValue(content, id).value).Some?
    ensures Strip(KeyValue(content, id).value) == KeyValue(content, id).value
  {
    hide Universal, IsAscii, IsBase64;
    StripTwice(Universal(content));
    var parts := Words(Strip(Universal(content)));
    assert StartsWith(parts[0], "ssh-") by {
      assert "ssh-ed25519"[..4] == "ssh-";
    }
  }

  /** A generated key is valid, one line, and carries an identity. */
  lemma GeneratedIsValid(body: string, id: string)
    requires IsKeyId(id) && IsBase64(body) && body != ""
    ensures KeyValue(GeneratedFile(body, id), id) == Some(GeneratedKey(body, id))
    ensures OneLineKey(GeneratedKey(body, id))
  {
    hide Words, Strip, KeyIdentity, Universal, IsAscii;
    Base64NoSpace(body);
    GeneratedIsAscii(body, id);
    UniversalPlain(GeneratedFile(body, id));
    var comment := KEY_COMMENT_PREFIX + id;
    CommentIsAWord(id);
    ThreeWords("ssh-ed25519", body, comment);
    ThreeWordsAreALine("ssh-ed25519", body, comment);
    assert GeneratedKey(body, id) == "ssh-ed25519" + " " + body + " " + comment;
    StripNewline(GeneratedKey(body, id));
    ValidKeyHasIdentity(GeneratedFile(body, id), id);
  }

  lemma Base64IsAscii(body: string)
    requires IsBase64(body)
    ensures IsAscii(body)
  {
  }

  lemma CommentIsAscii(id: string)
    requires IsKeyId(id)
    ensures IsAscii(KEY_COMMENT_PREFIX + id) && IsAscii("ssh-ed25519")
  {
  }

  lemma AsciiConcat(a: string, b: string)
    ensures IsAscii(a + b) <==> IsAscii(a) && IsAscii(b)
  {
    assert forall i | 0 <= i < |a| :: (a + b)[i] == a[i];
    assert forall i | 0 <= i < |b| :: (a + b)[|a| + i] == b[i];
  }

  lemma PlainSeparators()
    ensures IsAscii("\n") && IsAscii([' ', ' '])
  {
  }

  lemma GeneratedIsAscii(body: string, id: string)
    requires IsKeyId(id) && IsBase64(body) && body != ""
    ensures IsAscii(GeneratedFile(body, id)) && '\r' !in GeneratedFile(body, id)
  {
    hide IsAscii, IsBase64, IsKeyId;
    assert GeneratedFile(body, id) == SpacedKey(' ', body, ' ', id) + "\n";
    SpacedIsAscii(' ', body, ' ', id);
    AsciiConcat(SpacedKey(' ', body, ' ', id), "\n");
    PlainSeparators();
  }

  /** A valid public key file whose three words are separated by any white space. */
  function SpacedKey(c: char, body: string, d: char, id: string): string {
    "ssh-ed25519" + [c] + body + [d] + (KEY_COMMENT_PREFIX + id)
  }

  /** What text mode makes of a separator. */
  function Read(c: char): char {
    if c == '\r' then '\n' else c
  }

  /**
   Such a file is accepted if and only if its separators are ASCII; but the text read from it
   lists the key's identity if and only if type and body are not separated by a line boundary.
   */
  lemma ListsItselfExactly(c: char, body: string, d: char, id: string)
    requires IsSpace(c) && IsSpace(d) && IsKeyId(id) && IsBase64(body) && body != ""
    ensures KeyValue(SpacedKey(c, body, d, id), id) ==
            if IsAscii([c, d]) then Some(SpacedKey(Read(c), body, Read(d), id)) else None
    ensures KeyIdentity(SpacedKey(Read(c), body, Read(d), id)) == Some(("ssh-ed25519", body))
    ensures Lists(SpacedKey(Read(c), body, Read(d), id), ("ssh-ed25519", body)) <==> !IsBreak(c)
  {
    hide Words, Strip, Lists, KeyIdentity, IsBase64, IsKeyId, Universal, IsAscii, SpacedKey;
    SpacedIsAscii(c, body, d, id);
    UniversalSpaced(c, body, d, id);
    SpacedKeyIsValid(Read(c), body, Read(d), id);
    SpacedKeyLists(Read(c), body, Read(d), id);
  }

  lemma SpacedIsAscii(c: char, body: string, d: char, id: string)
    requires IsKeyId(id) && IsBase64(body)
    ensures IsAscii(SpacedKey(c, body, d, id)) <==> IsAscii([c, d])
    ensures '\r' in SpacedKey(c, body, d, id) ==> c == '\r' || d == '\r'
  {
    hide IsBase64, IsKeyId;
    Base64NoSpace(body);
    CommentIsAWord(id);
    Base64IsAscii(body);
    CommentIsAscii(id);
    AsciiConcat("ssh-ed25519", [c]);
    AsciiConcat("ssh-ed25519" + [c], body);
    AsciiConcat("ssh-ed25519" + [c] + body, [d]);
    AsciiConcat("ssh-ed25519" + [c] + body + [d], KEY_COMMENT_PREFIX + id);
    AsciiConcat([c], [d]);
    assert [c] + [d] == [c, d];
  }

  /** Text mode changes a "\r" between the words and nothing else. */
  lemma UniversalSpaced(c: char, body: string, d: char, id: string)
    requires IsSpace(c) && IsSpace(d) && IsKeyId(id) && IsBase64(body) && body != ""
    ensures Universal(SpacedKey(c, body, d, id)) == SpacedKey(Read(c), body, Read(d), id)
  {
    hide IsBase64, IsKeyId, Universal;
    Base64NoSpace(body);
    CommentIsAWord(id);
    var comment := KEY_COMMENT_PREFIX + id;
    UniversalWord("ssh-ed25519", c, body + [d] + comment);
    UniversalWord(body, d, comment);
    UniversalPlain(comment);
    assert SpacedKey(c, body, d, id) == "ssh-ed25519" + [c] + (body + [d] + comment);
  }

  lemma {:induction false} UniversalWord(word: string, c: char, rest: string)
    requires NoSpace(word) && rest != "" && rest[0] != '\n'
    ensures Universal(word + [c] + rest) == word + [Read(c)] + Universal(rest)
  {
    var t := word + [c] + rest;
    if word == "" {
      assert t[1..] == rest;
    } else {
      assert t[1..] == word[1..] + [c] + rest;
      UniversalWord(word[1..], c, rest);
    }
  }

  lemma SpacedKeyLists(c: char, body: string, d: char, id: string)
    requires IsSpace(c) && IsSpace(d) && IsKeyId(id) && IsBase64(body) && body != ""
    ensures Lists(SpacedKey(c, body, d, id), ("ssh-ed25519", body)) <==> !IsBreak(c)
  {
    hide Words, Strip, SplitLines, IsBase64;
    SpacedKeyIsValid(c, body, d, id);
    var key := SpacedKey(c, body, d, id);
    Base64NoSpace(body);
    CommentIsAWord(id);
    if IsBreak(c) {
      TornKeyIsNotListed(c, body, d, id);
    } else {
      var first := "ssh-ed25519" + [c] + body;
      NoBreakConcat("ssh-ed25519", [c]);
      NoBreakConcat("ssh-ed25519" + [c], body);
      if IsBreak(d) {
        assert key == first + [d] + (KEY_COMMENT_PREFIX + id);
        assert (KEY_COMMENT_PREFIX + id)[0] == 'r';
        SplitUnit(first, [d], KEY_COMMENT_PREFIX + id);
        TwoWordsAreAKey(c, body);
        assert SplitLines(key)[0] == first;
      } else {
        NoBreakConcat(first, [d]);
        NoBreakConcat(first + [d], KEY_COMMENT_PREFIX + id);
        OneLineListsItself(key);
      }
    }
  }

  lemma SpacedKeyIsValid(c: char, body: string, d: char, id: string)
    requires IsSpace(c) && IsSpace(d) && IsKeyId(id) && IsBase64(body) && body != ""
    ensures Words(SpacedKey(c, body, d, id)) == ["ssh-ed25519", body, KEY_COMMENT_PREFIX + id]
    ensures KeyIdentity(SpacedKey(c, body, d, id)) == Some(("ssh-ed25519", body))
    ensures Strip(SpacedKey(c, body, d, id)) == SpacedKey(c, body, d, id)
  {
    hide Words, IsBase64, KeyIndex;
    Base64NoSpace(body);
    CommentIsAWord(id);
    var comment := KEY_COMMENT_PREFIX + id;
    var key := SpacedKey(c, body, d, id);
    assert key == "ssh-ed25519" + [c] + (body + [d] + comment);
    WordsSeparated("ssh-ed25519", c, body + [d] + comment);
    WordsSeparated(body, d, comment);
    WordsOne(comment);
    assert key[0] == 's' && key[|key| - 1] == comment[|comment| - 1];
    assert Words(key) == ["ssh-ed25519", body, comment];
    FirstIsTheType(Words(key));
  }

  lemma FirstIsTheType(words: seq<string>)
    requires words != [] && words[0] == "ssh-ed25519"
    ensures KeyIndex(words) == 0
  {
    assert "ssh-ed25519"[..4] == "ssh-";
  }

  lemma TwoWordsAreAKey(c: char, body: string)
    requires IsSpace(c) && IsBase64(body) && body != ""
    ensures KeyIdentity("ssh-ed25519" + [c] + body) == Some(("ssh-ed25519", body))
  {
    hide Words, IsBase64, KeyIndex;
    Base64NoSpace(body);
    assert NoSpace("ssh-ed25519");
    var line := "ssh-ed25519" + [c] + body;
    WordsSeparated("ssh-ed25519", c, body);
    WordsOne(body);
    assert line[0] == 's' && line[|line| - 1] == body[|body| - 1];
    FirstIsTheType(Words(line));
  }

  predicate NoKeyType(words: seq<string>) {
    forall i | 0 <= i < |words| :: !StartsWith(words[i], "ssh-")
  }

  lemma {:induction false} NoTypeNoIndex(words: seq<string>)
    requires NoKeyType(words)
    ensures KeyIndex(words) == |words|
  {
    if words != [] {
      NoTypeNoIndex(words[1..]);
    }
  }

  /** Neither the body nor the comment of such a key starts like a key type. */
  lemma OnlyTheTypeIsAType(body: string, id: string)
    requires IsBase64(body)
    ensures !StartsWith(body, "ssh-") && !StartsWith(KEY_COMMENT_PREFIX + id, "ssh-")
  {
    assert "ssh-"[3] == '-';
    assert |body| >= 4 ==> body[..4][3] == body[3] != '-';
    assert (KEY_COMMENT_PREFIX + id)[..4][0] == 'r';
  }

  /** A line of words without a key type carries no identity. */
  lemma WordIsNoKey(word: string)
    requires word != "" && NoSpace(word) && !StartsWith(word, "ssh-")
    ensures KeyIdentity(word) == None
  {
    hide Words, KeyIndex;
    WordsOne(word);
    NoTypeNoIndex([word]);
  }

  lemma TypeAloneIsNoKey()
    ensures KeyIdentity("ssh-ed25519") == None
  {
    hide Words, KeyIndex;
    WordsOne("ssh-ed25519");
    FirstIsTheType(["ssh-ed25519"]);
  }

  lemma BodyAndCommentAreNoKey(body: string, d: char, comment: string)
    requires body != "" && NoSpace(body) && !StartsWith(body, "ssh-") && IsSpace(d)
    requires comment != "" && NoSpace(comment) && !StartsWith(comment, "ssh-")
    ensures KeyIdentity(body + [d] + comment) == None
  {
    hide Words, KeyIndex;
    var line := body + [d] + comment;
    WordsSeparated(body, d, comment);
    WordsOne(comment);
    assert line[0] == body[0] && line[|line| - 1] == comment[|comment| - 1];
    NoTypeNoIndex([body, comment]);
  }

  /** A text without boundary is its only line. */
  lemma OneLine(t: string)
    requires NoBreak(t) && t != ""
    ensures SplitLines(t) == [t]
  {
    assert t + "" == t;
    LineEndIs(t, "");
    Unbroken(t);
  }

  lemma NoSpaceNoBreak(t: string)
    requires NoSpace(t)
    ensures NoBreak(t)
  {
  }

  /** With a line boundary after the type, no line carries the identity. */
  lemma TornKeyIsNotListed(c: char, body: string, d: char, id: string)
    requires IsBreak(c) && IsSpace(d) && IsKeyId(id) && IsBase64(body) && body != ""
    ensures !Lists(SpacedKey(c, body, d, id), ("ssh-ed25519", body))
  {
    hide Words, Strip, SplitLines, IsBase64, KeyIdentity, StartsWith;
    Base64NoSpace(body);
    CommentIsAWord(id);
    OnlyTheTypeIsAType(body, id);
    var comment := KEY_COMMENT_PREFIX + id;
    var rest := body + [d] + comment;
    assert SpacedKey(c, body, d, id) == "ssh-ed25519" + [c] + rest;
    NoSpaceNoBreak(body);
    NoSpaceNoBreak(comment);
    assert rest[0] == body[0];
    SplitUnit("ssh-ed25519", [c], rest);
    TypeAloneIsNoKey();
    if IsBreak(d) {
      assert comment[0] == 'r';
      SplitUnit(body, [d], comment);
      OneLine(comment);
      WordIsNoKey(body);
      WordIsNoKey(comment);
      assert SplitLines(rest) == [body, comment];
    } else {
      NoBreakConcat(body, [d]);
      NoBreakConcat(body + [d], comment);
      OneLine(rest);
      BodyAndCommentAreNoKey(body, d, comment);
    }
  }

  lemma CommentIsAWord(id: string)
    requires IsKeyId(id)
    ensures KEY_COMMENT_PREFIX + id != "" && NoSpace(KEY_COMMENT_PREFIX + id)
    ensures NoSpace("ssh-ed25519")
  {
  }

  lemma StripNewline(t: string)
    requires t != "" && Strip(t) == t
    ensures Strip(t + "\n") == t
  {
    assert (t + "\n")[..|t|] == t;
  }

  /** What the system does while a pair is made or read; `id` and `body` are what uuid4 and ssh-keygen choose. */
  datatype KeyFaults = KeyFaults(id: string, body: string, runs: bool, directory: Fault, test: Fault, protect: bool) {
    predicate Makes() {
      runs && !directory.Escapes? && IsKeyId(id) && IsBase64(body) && body != ""
    }
  }

  /** One new pair, complete and on one line, and no other file has changed. */
  predicate NewPair(privateFiles: set<string>, publicFiles: map<string, string>,
                    privateNow: set<string>, publicNow: map<string, string>, id: string) {
    && privateNow == privateFiles + {id} && publicNow.Keys == publicFiles.Keys + {id}
    && publicNow - {id} == publicFiles
    && PairKey(privateNow, publicNow, id).Some? && OneLineKey(PairKey(privateNow, publicNow, id).value)
  }

  class SSHKeyStore {
    var privateFiles: set<string>
    var publicFiles: map<string, string>

    constructor (privateFiles: set<string>, publicFiles: map<string, string>)
      ensures this.privateFiles == privateFiles && this.publicFiles == publicFiles
    {
      this.privateFiles := privateFiles;
      this.publicFiles := publicFiles;
    }

    /** The validated public key of a complete pair. */
    function PublicKey(id: string): Option<string>
      reads this
    {
      PairKey(privateFiles, publicFiles, id)
    }

    /** _read_and_validate_pair: an incomplete or invalid pair is refused, and reading may fail. */
    method ReadAndValidatePair(id: string, f: Fault) returns (r: Result<string>)
      ensures r.Ok? ==> f.Fine? && PublicKey(id) == Some(r.value)
      ensures f.Fine? && PublicKey(id).Some? ==> r.Ok?
      ensures r.Err? ==> r.error in {KeyNotFound, KeyInvalid, Escaped(TestingKeyLinks)}
      ensures r == Err(Escaped(TestingKeyLinks)) <==> f.Escapes?
    {
      if f.Escapes? {
        return Err(Escaped(TestingKeyLinks));
      }
      if id !in privateFiles || id !in publicFiles {
        return Err(KeyNotFound);
      }
      var value := KeyValue(publicFiles[id], id);
      if f.Refused? || value.None? {
        return Err(KeyInvalid);
      }
      return Ok(value.value);
    }

    /** SSHKeyStore.load. */
    method Load(id: string, f: Fault) returns (r: Result<KeyPair>)
      ensures r.Ok? ==>
                && IsKeyId(id) && PublicKey(id) == Some(r.value.publicKey)
                && r.value.keyId == id && !r.value.generated
      ensures r.Ok? <==> IsKeyId(id) && f.Fine? && PublicKey(id).Some?
      ensures r.Err? ==> r.error in {KeyIdInvalid, KeyNotFound, KeyInvalid, Escaped(TestingKeyLinks)}
    {
      if !IsKeyId(id) {
        return Err(KeyIdInvalid);
      }
      var key := ReadAndValidatePair(id, f);
      return if key.Err? then Err(key.error) else Ok(KeyPair(id, key.value, false));
    }

    /**
     _generate: a new pair under an unused id, or no file at all; except that the files stay when
     testing them for links ends in an exception that is not a RABError.
     */
    method Generate(f: KeyFaults) returns (r: Result<KeyPair>)
      modifies this
      ensures r.Err? && r.error != Escaped(TestingKeyLinks) ==>
                privateFiles == old(privateFiles) && publicFiles == old(publicFiles)
      ensures r == Err(Escaped(TestingKeyLinks)) ==>
                && f.id !in old(privateFiles) && f.id !in old(publicFiles)
                && NewPair(old(privateFiles), old(publicFiles), privateFiles, publicFiles, f.id)
      ensures r == Err(Escaped(TestingKeyLinks)) <==>
                f.test.Escapes? && f.Makes() && f.id !in old(privateFiles) && f.id !in old(publicFiles)
      ensures r.Err? ==> r.error in {KeyGenerationFailed, KeyNotFound, KeyInvalid, Escaped(TestingKeyLinks),
                Escaped(Elsewhere)}
      ensures r.Ok? ==>
                && r.value.keyId == f.id && r.value.generated
                && f.id !in old(privateFiles) && f.id !in old(publicFiles)
                && NewPair(old(privateFiles), old(publicFiles), privateFiles, publicFiles, f.id)
                && PublicKey(f.id) == Some(r.value.publicKey) && r.value.publicKey == GeneratedKey(f.body, f.id)
      ensures r.Ok? <==>
                f.Makes() && f.id !in old(privateFiles) && f.id !in old(publicFiles) && f.test.Fine? && f.protect
    {
      hide KeyValue, OneLineKey, IsKeyId, IsBase64, GeneratedKey, GeneratedFile;
      if f.directory.Escapes? {
        return Err(Escaped(Elsewhere));
      }
      if !f.Makes() || f.id in privateFiles || f.id in publicFiles {
        return Err(KeyGenerationFailed);
      }
      ghost var before := publicFiles;
      privateFiles, publicFiles := privateFiles + {f.id}, publicFiles[f.id := GeneratedFile(f.body, f.id)];
      assert publicFiles - {f.id} == before;
      GeneratedIsValid(f.body, f.id);
      var key := ReadAndValidatePair(f.id, f.test);
      if key == Err(Escaped(TestingKeyLinks)) {
        return Err(Escaped(TestingKeyLinks));
      }
      if key.Err? || !f.protect {
        privateFiles, publicFiles := privateFiles - {f.id}, publicFiles - {f.id};
        return Err(if key.Err? then key.error else KeyGenerationFailed);
      }
      return Ok(KeyPair(f.id, key.value, true));
    }

    /** SSHKeyStore.ensure_key. */
    method EnsureKey(existing: Option<string>, f: KeyFaults) returns (r: Result<KeyPair>)
      modifies this
      ensures existing.Some? || (r.Err? && r.error != Escaped(TestingKeyLinks)) ==>
                privateFiles == old(privateFiles) && publicFiles == old(publicFiles)
      ensures r.Err? ==> r.error in {KeyIdInvalid, KeyGenerationFailed, KeyNotFound, KeyInvalid,
                                     Escaped(TestingKeyLinks), Escaped(Elsewhere)}
      ensures r.Ok? ==> PublicKey(r.value.keyId) == Some(r.value.publicKey)
      ensures r.Ok? ==> (r.value.generated <==> existing.None?)
      ensures r.Ok? && existing.Some? ==> r.value.keyId == existing.value
      ensures existing.None? && (r.Ok? || r.error == Escaped(TestingKeyLinks)) ==>
                && f.id !in old(privateFiles) && f.id !in old(publicFiles) && (r.Ok? ==> r.value.keyId == f.id)
                && NewPair(old(privateFiles), old(publicFiles), privateFiles, publicFiles, f.id)
      ensures existing.Some? && IsKeyId(existing.value) && f.test.Fine? && old(PublicKey(existing.value)).Some? ==>
                r.Ok?
      ensures existing.None? && f.test.Escapes? && f.Makes() && f.id !in old(privateFiles)
                && f.id !in old(publicFiles) ==>
                r == Err(Escaped(TestingKeyLinks))
      ensures r.Ok? <==> PairComes(old(privateFiles), old(publicFiles), existing, f)
      ensures r.Ok? ==> r.value.publicKey == PairText(old(privateFiles), old(publicFiles), existing, f)
    {
      hide KeyValue, IsKeyId, OneLineKey;
      if existing.Some? {
        r := Load(existing.value, f.test);
      } else {
        r := Generate(f);
      }
    }

    /** remove_generated: both files of the pair, public first; other pairs are never touched. */
    method RemoveGenerated(pair: KeyPair, test: Fault, publicStays: bool, privateStays: bool) returns (r: Result<()>)
      requires pair.generated
      modifies this
      ensures privateFiles == old(privateFiles) || privateFiles == old(privateFiles) - {pair.keyId}
      ensures publicFiles == old(publicFiles) || publicFiles == old(publicFiles) - {pair.keyId}
      ensures r.Ok? ==> pair.keyId !in privateFiles && pair.keyId !in publicFiles
      ensures r.Err? ==> r.error == RollbackFailed
      ensures r.Ok? <==>
                test.Fine? && !publicStays && !privateStays && old(PublicKey(pair.keyId)) == Some(pair.publicKey)
    {
      hide KeyValue;
      var key := ReadAndValidatePair(pair.keyId, test);
      if key.Err? || key.value != pair.publicKey {
        return Err(RollbackFailed);
      }
      if publicStays {
        return Err(RollbackFailed);
      }
      publicFiles := publicFiles - {pair.keyId};
      if privateStays {
        return Err(RollbackFailed);
      }
      privateFiles := privateFiles - {pair.keyId};
      return Ok(());
    }
  }

  /** A pair can be had: the one asked for is complete and readable, or a new one can be made. */
  predicate PairComes(privateFiles: set<string>, publicFiles: map<string, string>, existing: Option<string>,
                      f: KeyFaults) {
    && f.test.Fine?
    && match existing
       case Some(id) => IsKeyId(id) && PairKey(privateFiles, publicFiles, id).Some?
       case None => f.Makes() && f.id !in privateFiles && f.id !in publicFiles && f.protect
  }

  /** Its public key. */
  function PairText(privateFiles: set<string>, publicFiles: map<string, string>, existing: Option<string>,
                    f: KeyFaults): string
    requires PairComes(privateFiles, publicFiles, existing, f)
  {
    match existing
    case Some(id) => PairKey(privateFiles, publicFiles, id).value
    case None => GeneratedKey(f.body, f.id)
  }

  function PairKey(privateFiles: set<string>, publicFiles: map<string, string>, id: string): Option<string> {
    if id in privateFiles && id in publicFiles then KeyValue(publicFiles[id], id) else None
  }
}

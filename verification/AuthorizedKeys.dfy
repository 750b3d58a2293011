/** The text of a remote authorized_keys file (app/infrastructure/ssh_bootstrap.py). */
module AuthorizedKeys {
  import opened Wrappers
  import opened Text

  /** The index of the first word that starts with "ssh-". */
  function KeyIndex(parts: seq<string>): (i: nat)
    ensures i <= |parts| && (i < |parts| ==> StartsWith(parts[i], "ssh-"))
  {
    if parts == [] || StartsWith(parts[0], "ssh-") then 0 else 1 + KeyIndex(parts[1..])
  }

  /** _public_key_identity: key type and key body, ignoring options before and comments after. */
  function KeyIdentity(value: string): Option<(string, string)> {
    var parts := Words(Strip(value));
    var i := KeyIndex(parts);
    if i + 1 < |parts| && IsBase64(parts[i + 1]) then Some((parts[i], parts[i + 1])) else None
  }

  /** The word at `i` is the first that names a key type, and `id` is it and the word after it. */
  predicate IsKeyAt(parts: seq<string>, i: nat, id: (string, string)) {
    && i + 1 < |parts| && id == (parts[i], parts[i + 1])
    && StartsWith(parts[i], "ssh-") && IsBase64(parts[i + 1])
    && forall j | 0 <= j < i :: !StartsWith(parts[j], "ssh-")
  }

  /**
   The identity of a line: the first word that starts with "ssh-" and the word after it, if that
   is base64. Option words before are skipped, words after are ignored.
   */
  lemma IdentityExactly(line: string, id: (string, string))
    ensures KeyIdentity(line) == Some(id) <==> exists i :: IsKeyAt(Words(Strip(line)), i, id)
  {
    hide Words, Strip, IsBase64, StartsWith;
    var parts := Words(Strip(line));
    FirstKeyIndex(parts);
    var k := KeyIndex(parts);
    if KeyIdentity(line) == Some(id) {
      assert IsKeyAt(parts, k, id);
    }
    if i :| IsKeyAt(parts, i, id) {
      assert i == k;
    }
  }

  lemma {:induction false} FirstKeyIndex(parts: seq<string>)
    ensures forall j | 0 <= j < KeyIndex(parts) :: !StartsWith(parts[j], "ssh-")
  {
    hide StartsWith;
    if parts != [] && !StartsWith(parts[0], "ssh-") {
      FirstKeyIndex(parts[1..]);
      assert forall j | 1 <= j < |parts| :: parts[j] == parts[1..][j - 1];
    }
  }

  /** A line with options before the key has the identity of the key. */
  lemma OptionsAreSkipped(options: string, keyType: string, body: string)
    requires options != "" && NoSpace(options) && !StartsWith(options, "ssh-")
    requires NoSpace(keyType) && StartsWith(keyType, "ssh-") && IsBase64(body) && body != ""
    ensures KeyIdentity(options + " " + keyType + " " + body) == Some((keyType, body))
  {
    hide Words, Strip, IsBase64, KeyIdentity;
    Base64NoSpace(body);
    ThreeWords(options, keyType, body);
    ThreeWordsAreALine(options, keyType, body);
    var parts := [options, keyType, body];
    assert IsKeyAt(parts, 1, (keyType, body));
    IdentityExactly(options + " " + keyType + " " + body, (keyType, body));
  }

  /** Some line of the file carries this key identity. */
  predicate Lists(content: string, id: (string, string)) {
    exists i | 0 <= i < |SplitLines(content)| :: KeyIdentity(SplitLines(content)[i]) == Some(id)
  }

  /** What install_public_key writes when the identity is not listed yet. */
  function InstallText(existing: string, key: string): string {
    existing + (if existing == "" || EndsWithNewline(existing) then "" else "\n") + key + "\n"
  }

  /** What remove_public_key writes: the first line that is exactly the key goes. */
  function RemoveText(existing: string, key: string): Option<string> {
    var lines := SplitLines(existing);
    match IndexOf(lines, Strip(key))
    case None => None
    case Some(i) => Some(Render(Without(lines, i)))
  }

  /** A public key as ssh-keygen writes it, without surrounding space: one line with an identity. */
  predicate OneLineKey(key: string) {
    NoBreak(key) && Strip(key) == key && KeyIdentity(key).Some?
  }

  /** The empty line that appending after a "\v"-like boundary creates. */
  function Gap(existing: string): seq<string> {
    if existing != "" && !EndsWithNewline(existing) && Closed(existing) then [""] else []
  }

  lemma KeyIsNotEmpty(key: string)
    requires KeyIdentity(key).Some?
    ensures key != "" && Strip(key) != ""
  {
  }

  /** Installing appends exactly the lines of the key text. */
  lemma InstallAddsTheKeysLines(existing: string, key: string)
    requires Strip(key) == key && key != ""
    ensures SplitLines(InstallText(existing, key)) == SplitLines(existing) + Gap(existing) + SplitLines(key)
  {
    hide SplitLines, Strip;
    NotSpaceNotBreak(key);
    SplitNonEmpty("");
    NoLines();
    SplitAcrossNewline(key, "");
    assert key + "\n" + "" == key + "\n";
    assert !Closed(key);
    assert SplitLines(key) + [] + [] == SplitLines(key);
    if existing == "" || EndsWithNewline(existing) {
      SplitAppend(existing, key + "\n");
      assert InstallText(existing, key) == existing + (key + "\n");
    } else {
      SplitAcrossNewline(existing, key + "\n");
      assert InstallText(existing, key) == existing + "\n" + (key + "\n");
    }
  }

  lemma NotSpaceNotBreak(key: string)
    requires Strip(key) == key && key != ""
    ensures !IsBreak(key[|key| - 1])
  {
  }

  lemma NoLines()
    ensures SplitLines("") == []
  {
  }

  /** After an install an identity is listed exactly when it was before or the key text itself lists it. */
  lemma ListedExactly(existing: string, key: string, id: (string, string))
    requires Strip(key) == key && key != ""
    ensures Lists(InstallText(existing, key), id) <==> Lists(existing, id) || Lists(key, id)
  {
    hide SplitLines, KeyIdentity, InstallText, Strip;
    InstallAddsTheKeysLines(existing, key);
    var a, g, b := SplitLines(existing), Gap(existing), SplitLines(key);
    var all := SplitLines(InstallText(existing, key));
    BlankHasNoIdentity();
    if Lists(existing, id) {
      var i :| 0 <= i < |a| && KeyIdentity(a[i]) == Some(id);
      assert all[i] == a[i];
    }
    if Lists(key, id) {
      var i :| 0 <= i < |b| && KeyIdentity(b[i]) == Some(id);
      assert all[|a| + |g| + i] == b[i];
    }
    if Lists(InstallText(existing, key), id) {
      var i :| 0 <= i < |all| && KeyIdentity(all[i]) == Some(id);
      if i < |a| {
        assert a[i] == all[i];
      } else {
        assert i >= |a| + |g|;
        assert b[i - |a| - |g|] == all[i];
      }
    }
  }

  lemma BlankHasNoIdentity()
    ensures KeyIdentity("") == None
  {
  }

  /** A one-line key lists its own identity. */
  lemma OneLineListsItself(key: string)
    requires OneLineKey(key)
    ensures Lists(key, KeyIdentity(key).value)
  {
    hide KeyIdentity, Strip;
    KeyIsNotEmpty(key);
    assert key + "" == key;
    LineEndIs(key, "");
    Unbroken(key);
    assert SplitLines(key)[0] == key;
  }

  /** Installing appends exactly one line, the key. */
  lemma InstallLines(existing: string, key: string)
    requires OneLineKey(key)
    ensures SplitLines(InstallText(existing, key)) == SplitLines(existing) + Gap(existing) + [key]
  {
    hide SplitLines;
    KeyIsNotEmpty(key);
    SplitLineThen(key, "");
    SplitNonEmpty("");
    assert key + "\n" + "" == key + "\n";
    if existing == "" || EndsWithNewline(existing) {
      SplitAppend(existing, key + "\n");
      assert InstallText(existing, key) == existing + (key + "\n");
    } else {
      SplitAcrossNewline(existing, key + "\n");
      assert InstallText(existing, key) == existing + "\n" + (key + "\n");
    }
  }

  /** After an install the identity is listed, so a second install finds it and changes nothing. */
  lemma InstalledIsListed(existing: string, key: string)
    requires OneLineKey(key)
    ensures Lists(InstallText(existing, key), KeyIdentity(key).value)
  {
    hide SplitLines, KeyIdentity;
    InstallLines(existing, key);
    var after := SplitLines(InstallText(existing, key));
    assert after[|after| - 1] == key;
  }

  /** Whatever the key looks like, appending it keeps every identity that was listed. */
  lemma InstallKeepsListed(existing: string, key: string)
    ensures forall id | Lists(existing, id) :: Lists(InstallText(existing, key), id)
  {
    hide SplitLines, KeyIdentity;
    var more := key + "\n";
    if existing == "" || EndsWithNewline(existing) {
      SplitAppend(existing, more);
      assert InstallText(existing, key) == existing + more;
    } else {
      SplitAcrossNewline(existing, more);
      assert InstallText(existing, key) == existing + "\n" + more;
    }
    var before, after := SplitLines(existing), SplitLines(InstallText(existing, key));
    assert after[..|before|] == before;
    forall id | Lists(existing, id) ensures Lists(InstallText(existing, key), id) {
      var i :| 0 <= i < |before| && KeyIdentity(before[i]) == Some(id);
      assert after[i] == before[i];
    }
  }

  /** A key that spans lines is never found again as a line. */
  lemma BrokenKeyIsNotFound(content: string, key: string)
    requires !NoBreak(Strip(key))
    ensures RemoveText(content, key).None?
  {
  }

  /** Removing what was just installed gives back the lines that were there before. */
  lemma InstallThenRemove(existing: string, key: string)
    requires OneLineKey(key) && !Lists(existing, KeyIdentity(key).value)
    ensures RemoveText(InstallText(existing, key), key) == Some(Render(SplitLines(existing) + Gap(existing)))
  {
    hide SplitLines, KeyIdentity, Render, Strip;
    InstallLines(existing, key);
    KeyIsNotEmpty(key);
    var before := SplitLines(existing) + Gap(existing);
    var after := SplitLines(InstallText(existing, key));
    forall i | 0 <= i < |before| ensures before[i] != key {
      assert i < |SplitLines(existing)| ==> KeyIdentity(SplitLines(existing)[i]) != KeyIdentity(key);
    }
    assert after == before + [key] && after[|before|] == key;
    var i := IndexOf(after, key);
    assert i == Some(|before|);
    assert Without(after, |before|) == before;
  }

  /**
   The text round trip, exactly: install then remove gives back the original text with only a
   missing final newline added if and only if the text separates its lines with "\n" alone
   and is not a lone newline.
   */
  lemma RoundTripExactly(existing: string, key: string)
    requires OneLineKey(key) && !Lists(existing, KeyIdentity(key).value)
    ensures RemoveText(InstallText(existing, key), key) == Some(WithFinalNewline(existing))
            <==> OnlyNewlines(existing) && existing != "\n"
  {
    hide SplitLines, Render, KeyIdentity, Lists, InstallText, RemoveText;
    InstallThenRemove(existing, key);
    if existing == "\n" {
      LoneNewlineVanishes();
    } else if OnlyNewlines(existing) {
      NoGap(existing);
      assert SplitLines(existing) + [] == SplitLines(existing);
      RenderSplit(existing);
    } else {
      RenderOnlyNewlines(SplitLines(existing) + Gap(existing));
      var i :| 0 <= i < |existing| && IsBreak(existing[i]) && existing[i] != '\n';
      assert WithFinalNewline(existing)[i] == existing[i];
    }
  }

  lemma LoneNewlineVanishes()
    ensures Render(SplitLines("\n") + Gap("\n")) == ""
    ensures WithFinalNewline("\n") == "\n"
  {
    SplitLoneNewline();
    assert Gap("\n") == [];
    assert [""] + [] == [""];
  }

  /** Two texts that do not come back: a lone newline vanishes, and a vertical tab becomes a newline. */
  lemma TextsThatChange(key: string)
    requires OneLineKey(key)
    ensures RemoveText(InstallText("\n", key), key) == Some("")
    ensures RemoveText(InstallText("#\U{000B}#", key), key) != Some(WithFinalNewline("#\U{000B}#"))
  {
    hide SplitLines, Render, KeyIdentity, InstallText, RemoveText;
    NoKeyInBlank(KeyIdentity(key).value);
    InstallThenRemove("\n", key);
    LoneNewlineVanishes();
    NoKeyInComment(KeyIdentity(key).value);
    RoundTripExactly("#\U{000B}#", key);
    assert IsBreak("#\U{000B}#"[1]);
  }

  lemma NoKeyInBlank(id: (string, string))
    ensures !Lists("\n", id)
  {
    SplitLoneNewline();
    assert KeyIdentity("").None?;
  }

  lemma NoKeyInComment(id: (string, string))
    ensures !Lists("#\U{000B}#", id)
  {
    hide SplitLines;
    assert "#\U{000B}#" == "#" + "\U{000B}" + "#";
    SplitUnit("#", "\U{000B}", "#");
    Unbroken("#") by {
      assert "#" + "" == "#";
      LineEndIs("#", "");
    }
    assert SplitLines("#\U{000B}#") == ["#", "#"];
    NotAKey("#");
  }

  lemma NotAKey(line: string)
    requires line == "#"
    ensures KeyIdentity(line).None?
  {
    WordsOne("#");
  }

  lemma NoGap(existing: string)
    requires OnlyNewlines(existing)
    ensures Gap(existing) == []
  {
  }

  /** Removal deletes exactly one line, the first that is the key, and keeps the others in order. */
  lemma RemoveDeletesOneLine(existing: string, key: string, i: nat)
    requires RemoveText(existing, key).Some? && IndexOf(SplitLines(existing), Strip(key)) == Some(i)
    ensures i < |SplitLines(existing)| && SplitLines(existing)[i] == Strip(key)
    ensures var rest := Without(SplitLines(existing), i);
            SplitLines(RemoveText(existing, key).value) == if rest == [""] then [] else rest
  {
    hide SplitLines, Render;
    SplitRender(Without(SplitLines(existing), i));
  }

  /** Other identities stay listed when one line is removed. */
  lemma RemoveKeepsOthers(existing: string, key: string, id: (string, string))
    requires RemoveText(existing, key).Some? && Lists(existing, id) && KeyIdentity(Strip(key)) != Some(id)
    ensures Lists(RemoveText(existing, key).value, id)
  {
    hide SplitLines, KeyIdentity, Render, Strip;
    var lines := SplitLines(existing);
    var i := IndexOf(lines, Strip(key)).value;
    RemoveDeletesOneLine(existing, key, i);
    var rest := Without(lines, i);
    var k :| 0 <= k < |lines| && KeyIdentity(lines[k]) == Some(id);
    var m := if k < i then k else k - 1;
    assert rest[m] == lines[k];
    KeyIsNotEmpty(rest[m]);
    assert rest != [""];
  }

  lemma NothingListed(id: (string, string))
    ensures !Lists("", id) && SplitLines("") == [] && Render([]) == ""
  {
  }

  /** The lines that matter: install then remove never changes the non-blank lines, for any text. */
  lemma RoundTripKeepsNonBlank(existing: string, key: string)
    requires OneLineKey(key) && !Lists(existing, KeyIdentity(key).value)
    ensures RemoveText(InstallText(existing, key), key).Some?
    ensures NonBlank(SplitLines(RemoveText(InstallText(existing, key), key).value)) == NonBlank(SplitLines(existing))
    ensures RemoveText(InstallText("", key), key) == Some("")
  {
    hide SplitLines, KeyIdentity, Render, Lists, Join;
    InstallThenRemove(existing, key);
    var lines := SplitLines(existing) + Gap(existing);
    SplitRender(lines);
    NonBlankConcat(SplitLines(existing), Gap(existing));
    assert NonBlank([""]) == [];
    NothingListed(KeyIdentity(key).value);
    InstallThenRemove("", key);
    assert SplitLines("") + Gap("") == [];
  }
}

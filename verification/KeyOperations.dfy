/**
 What each key operation does when its write works, in memory and on file alike, and what
 it is refused for: spelled out on the list of keys.
 */
module KeyOperations {
  import opened Addresses
  import opened Names
  import opened KeyStates

  /** Memory and file both hold st. */
  function Written(st: FileState): State {
    State(st, Some(st))
  }

  predicate Unused(keys: seq<Key>, name: string) {
    forall i :: 0 <= i < |keys| ==> keys[i].name != name
  }

  lemma FoundAt(keys: seq<Key>, i: nat)
    requires KeysOk(keys) && i < |keys|
    ensures Has(keys, keys[i].name) && Find(keys, keys[i].name) == i
  {
    FoundWhenPresent(keys, keys[i].name);
  }

  lemma UnusedIsAbsent(keys: seq<Key>, name: string)
    ensures Unused(keys, name) <==> !Has(keys, name)
  {
  }

  /** Use makes the key active and changes nothing else. */
  lemma UseEffect(unescape: string -> Option<string>, s: State, i: nat)
    requires KeysOk(s.mem.keys) && i < |s.mem.keys|
    ensures var name := s.mem.keys[i].name;
            Step(unescape, s, Use(name, true)) == Written(FileState(s.mem.keys, name, s.mem.lastConnectedAt))
  {
    FoundAt(s.mem.keys, i);
  }

  /** A connect makes the key active and notes the time. */
  lemma MarkConnectedEffect(unescape: string -> Option<string>, s: State, i: nat, now: int)
    requires KeysOk(s.mem.keys) && i < |s.mem.keys|
    ensures var name := s.mem.keys[i].name;
            Step(unescape, s, MarkConnected(name, now, true)) == Written(FileState(s.mem.keys, name, now))
  {
    FoundAt(s.mem.keys, i);
  }

  /** Rename changes the name of that key, where it stands, and Active if it named the key. */
  lemma RenameEffect(unescape: string -> Option<string>, s: State, i: nat, newName: string)
    requires KeysOk(s.mem.keys) && i < |s.mem.keys| && ValidName(newName) && Unused(s.mem.keys, newName)
    ensures var k := s.mem.keys[i];
            Step(unescape, s, Rename(k.name, newName, true)) == Written(FileState(
              s.mem.keys[..i] + [Key(newName, k.url, k.labelFromURL, k.addedAt)] + s.mem.keys[i + 1..],
              if s.mem.active == k.name then newName else s.mem.active,
              s.mem.lastConnectedAt))
  {
    var keys := s.mem.keys;
    FoundAt(keys, i);
    UnusedIsAbsent(keys, newName);
    var k := keys[i];
    assert keys[i := k.(name := newName)] == keys[..i] + [Key(newName, k.url, k.labelFromURL, k.addedAt)] + keys[i + 1..];
  }

  /** Remove drops that key and keeps the others in order; Active is cleared if it named the key. */
  lemma RemoveEffect(unescape: string -> Option<string>, s: State, i: nat)
    requires KeysOk(s.mem.keys) && i < |s.mem.keys|
    ensures var k := s.mem.keys[i];
            Step(unescape, s, Remove(k.name, true)) == Written(FileState(
              s.mem.keys[..i] + s.mem.keys[i + 1..],
              if s.mem.active == k.name then "" else s.mem.active,
              s.mem.lastConnectedAt))
  {
    FoundAt(s.mem.keys, i);
  }

  /** The name a key is added under: the suggested one, or one made from the label. */
  function ChosenName(keys: seq<Key>, suggested: string, hint: string): string {
    if |suggested| > 0 then suggested else DerivedName(hint, NameSet(keys))
  }

  /** Nothing stands in the way of a new key. */
  predicate Addable(keys: seq<Key>, name: string, url: string) {
    && "ss://" <= url && |keys| < 128
    && (forall i :: 0 <= i < |keys| ==> keys[i].url != url)
    && ValidName(name) && Unused(keys, name)
  }

  /** Add puts the key last, with the trimmed URL, its label and the time; it becomes active if none is. */
  lemma AddEffect(unescape: string -> Option<string>, s: State, text: string, suggested: string, now: int)
    requires var url := TrimSpace(text);
             Addable(s.mem.keys, ChosenName(s.mem.keys, suggested, ExtractLabel(unescape, url)), url)
    ensures var url := TrimSpace(text);
            var hint := ExtractLabel(unescape, url);
            var name := ChosenName(s.mem.keys, suggested, hint);
            Step(unescape, s, Add(text, suggested, now, true)) == Written(FileState(
              s.mem.keys + [Key(name, url, hint, now)],
              if s.mem.active == "" then name else s.mem.active,
              s.mem.lastConnectedAt))
  {
    UnusedIsAbsent(s.mem.keys, ChosenName(s.mem.keys, suggested, ExtractLabel(unescape, TrimSpace(text))));
  }

  // ---- Refusals ----------------------------------------------------------------------------

  /** Use, MarkConnected and Remove are refused exactly for a name that is not stored, or a failed write. */
  lemma NamedOutcome(unescape: string -> Option<string>, st: FileState, op: KeyOp)
    requires op.Use? || op.MarkConnected? || op.Remove?
    ensures var name := if op.Use? then op.useName else if op.MarkConnected? then op.markName else op.name;
            var io := if op.Use? then op.useIo else if op.MarkConnected? then op.markIo else op.removeIo;
            Outcome(unescape, st, op) == if Unused(st.keys, name) then NoSuchKey else if io then Done else WriteFailed
  {
  }

  /** Rename: the new name comes first, then whether it changes anything, then both names are looked up. */
  lemma RenameOutcome(unescape: string -> Option<string>, st: FileState, oldName: string, newName: string, io: bool)
    ensures Outcome(unescape, st, Rename(oldName, newName, io)) ==
            if !ValidName(newName) then BadName
            else if oldName == newName then Done
            else if !Unused(st.keys, newName) then NameInUse
            else if Unused(st.keys, oldName) then NoSuchKey
            else if io then Done else WriteFailed
  {
    UnusedIsAbsent(st.keys, newName);
    UnusedIsAbsent(st.keys, oldName);
  }

  /** Add: the URL, the number of keys, the same URL again, then the name. */
  lemma AddOutcome(unescape: string -> Option<string>, st: FileState, text: string, suggested: string, now: int, io: bool)
    ensures var url := TrimSpace(text);
            var name := ChosenName(st.keys, suggested, ExtractLabel(unescape, url));
            Outcome(unescape, st, Add(text, suggested, now, io)) ==
            if |url| < 5 || url[..5] != "ss://" then BadURL
            else if |st.keys| >= 128 then TooManyKeys
            else if exists i :: 0 <= i < |st.keys| && st.keys[i].url == url then DuplicateURL
            else if !ValidName(name) then BadName
            else if !Unused(st.keys, name) then NameInUse
            else if io then Done else WriteFailed
  {
    var url := TrimSpace(text);
    UnusedIsAbsent(st.keys, ChosenName(st.keys, suggested, ExtractLabel(unescape, url)));
    assert "ss://" <= url <==> |url| >= 5 && url[..5] == "ss://";
  }

  // ---- Labels --------------------------------------------------------------------------------

  lemma {:induction false} LastHashAt(front: string, raw: string)
    requires '#' !in raw
    ensures LastHash(front + "#" + raw) == |front|
    decreases |raw|
  {
    var s := front + "#" + raw;
    if raw == "" {
      assert s[|s| - 1] == '#';
    } else {
      assert s[|s| - 1] == raw[|raw| - 1];
      assert raw[|raw| - 1] in raw;
      assert s[..|s| - 1] == front + "#" + raw[..|raw| - 1];
      LastHashAt(front, raw[..|raw| - 1]);
    }
  }

  lemma {:induction false} NoHash(s: string)
    requires '#' !in s
    ensures LastHash(s) == -1
  {
    if s != "" {
      assert s[|s| - 1] in s;
      NoHash(s[..|s| - 1]);
    }
  }

  /** The label is the text after the last '#', unescaped if that works; without a '#' there is none. */
  lemma LabelOf(unescape: string -> Option<string>, front: string, raw: string)
    requires '#' !in raw
    ensures ExtractLabel(unescape, front + "#" + raw) == if unescape(raw).Some? then unescape(raw).value else raw
    ensures ExtractLabel(unescape, raw) == ""
  {
    var s := front + "#" + raw;
    LastHashAt(front, raw);
    NoHash(raw);
    assert s[|front| + 1..] == raw;
  }
}

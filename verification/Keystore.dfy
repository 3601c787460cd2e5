/** The key store object: loops, in-place changes and hand-written rollbacks, proved against `KeyStates.Step`. */
module Keystore {
  import opened Addresses
  import opened Names
  import opened KeyStates

  class Store {
    const unescape: string -> Option<string>
    var keys: seq<Key>
    var active: string
    var lastConnectedAt: int
    var file: Option<FileState>

    ghost function Now(): State
      reads this
    {
      State(FileState(keys, active, lastConnectedAt), file)
    }

    /** Open: load the file, or start empty if there is none. */
    constructor (unescape: string -> Option<string>, file: Option<FileState>)
      ensures this.unescape == unescape
      ensures Now() == State(if file.Some? then file.value else EMPTY, file)
    {
      this.unescape := unescape;
      var st := if file.Some? then file.value else EMPTY;
      keys, active, lastConnectedAt := st.keys, st.active, st.lastConnectedAt;
      this.file := file;
    }

    /** Replace the file atomically, or leave it as it was. */
    method Persist(io: bool) returns (ok: bool)
      modifies this`file
      ensures ok == io
      ensures file == if io then Some(FileState(keys, active, lastConnectedAt)) else old(file)
    {
      ok := io;
      if io {
        file := Some(FileState(keys, active, lastConnectedAt));
      }
    }

    /** A copy of the keys in order of addition. */
    method List() returns (out: seq<Key>)
      ensures out == Listed(keys)
    {
      out := [];
      for i := 0 to |keys|
        invariant out == Listed(keys[..i])
      {
        assert keys[..i + 1][..i] == keys[..i];
        out := InsertByTime(out, keys[i]);
      }
      assert keys[..|keys|] == keys;
    }

    method IndexOf(name: string) returns (i: nat)
      ensures i == Find(keys, name)
    {
      i := 0;
      while i < |keys| && keys[i].name != name
        invariant 0 <= i <= |keys|
        invariant forall j :: 0 <= j < i ==> keys[j].name != name
      {
        i := i + 1;
      }
      FoundWhenPresent(keys, name);
    }

    method Get(name: string) returns (k: Option<Key>)
      ensures k == if Has(keys, name) then Some(keys[Find(keys, name)]) else None
    {
      FoundWhenPresent(keys, name);
      var i := IndexOf(name);
      k := if i < |keys| then Some(keys[i]) else None;
    }

    method StoredURL(url: string) returns (stored: bool)
      ensures stored == HasURL(keys, url)
    {
      for i := 0 to |keys|
        invariant forall j :: 0 <= j < i ==> keys[j].url != url
      {
        if keys[i].url == url {
          return true;
        }
      }
      return false;
    }

    /** Everything that can refuse a key, and the key that is stored otherwise. */
    method CheckAdd(ssURL: string, suggested: string, now: int) returns (status: Status, k: Key)
      ensures var op := KeyOp.Add(ssURL, suggested, now, true);
              && status == AddCheck(unescape, Now().mem, op)
              && (status == Done ==> k == NewKey(unescape, Now().mem, op))
    {
      var url := TrimSpace(ssURL);
      k := Key("", "", "", 0);
      if !("ss://" <= url) {
        return BadURL, k;
      }
      if |keys| >= MAX_KEYS {
        return TooManyKeys, k;
      }
      var stored := StoredURL(url);
      if stored {
        return DuplicateURL, k;
      }
      var hint := ExtractLabel(unescape, url);
      var name := suggested;
      if name == "" {
        name := DeriveName(hint, NameSet(keys));
      }
      if !ValidName(name) {
        return BadName, k;
      }
      FoundWhenPresent(keys, name);
      var i := IndexOf(name);
      if i < |keys| {
        return NameInUse, k;
      }
      return Done, Key(name, url, hint, now);
    }

    method Add(ssURL: string, suggested: string, now: int, io: bool) returns (status: Status, k: Key)
      modifies this
      ensures var op := KeyOp.Add(ssURL, suggested, now, io);
              && Now() == Step(unescape, old(Now()), op)
              && status == Outcome(unescape, old(Now()).mem, op)
              && (status == Done ==> k == NewKey(unescape, old(Now()).mem, op) && keys == old(keys) + [k])
    {
      status, k := CheckAdd(ssURL, suggested, now);
      if status != Done {
        return;
      }
      AddStep(unescape, Now(), KeyOp.Add(ssURL, suggested, now, io));
      keys := keys + [k];
      if active == "" {
        active := k.name;
      }
      var ok := Persist(io);
      if !ok {
        keys := keys[..|keys| - 1];
        if |keys| == 0 {
          active := "";
        }
        status := WriteFailed;
      }
    }

    method Remove(name: string, io: bool) returns (status: Status)
      modifies this
      ensures Now() == Step(unescape, old(Now()), KeyOp.Remove(name, io))
      ensures status == Outcome(unescape, old(Now()).mem, KeyOp.Remove(name, io))
    {
      FoundWhenPresent(keys, name);
      var idx := IndexOf(name);
      if idx == |keys| {
        return NoSuchKey;
      }
      var removed := keys[idx];
      keys := keys[..idx] + keys[idx + 1..];
      var oldActive := active;
      if active == name {
        active := "";
      }
      var ok := Persist(io);
      if !ok {
        keys := keys + [removed];
        active := oldActive;
        return WriteFailed;
      }
      return Done;
    }

    /** The first key with one name takes another. */
    method RenameFirst(name: string, newName: string) returns (found: bool)
      modifies this`keys
      ensures found == Has(old(keys), name)
      ensures found ==> var i := Find(old(keys), name);
                        i < |old(keys)| && keys == old(keys)[i := old(keys)[i].(name := newName)]
      ensures !found ==> keys == old(keys)
    {
      FoundWhenPresent(keys, name);
      var i := IndexOf(name);
      found := i < |keys|;
      if found {
        keys := keys[i := keys[i].(name := newName)];
      }
    }

    /** The rollback looks for the new name; it finds the renamed key because nobody else had that name. */
    method Rename(oldName: string, newName: string, io: bool) returns (status: Status)
      modifies this
      ensures Now() == Step(unescape, old(Now()), KeyOp.Rename(oldName, newName, io))
      ensures status == Outcome(unescape, old(Now()).mem, KeyOp.Rename(oldName, newName, io))
    {
      if !ValidName(newName) {
        return BadName;
      }
      if oldName == newName {
        return Done;
      }
      for i := 0 to |keys|
        invariant forall j :: 0 <= j < i ==> keys[j].name != newName
      {
        if keys[i].name == newName {
          return NameInUse;
        }
      }
      var found := RenameFirst(oldName, newName);
      if !found {
        return NoSuchKey;
      }
      var oldActive := active;
      if active == oldName {
        active := newName;
      }
      var ok := Persist(io);
      if !ok {
        ghost var i := Find(old(keys), oldName);
        assert keys[i].name == newName;
        assert Find(keys, newName) == i;
        var _ := RenameFirst(newName, oldName);
        assert keys == old(keys);
        active := oldActive;
        return WriteFailed;
      }
      return Done;
    }

    method Use(name: string, io: bool) returns (status: Status)
      modifies this
      ensures Now() == Step(unescape, old(Now()), KeyOp.Use(name, io))
      ensures status == Outcome(unescape, old(Now()).mem, KeyOp.Use(name, io))
    {
      FoundWhenPresent(keys, name);
      var i := IndexOf(name);
      if i == |keys| {
        return NoSuchKey;
      }
      var oldActive := active;
      active := name;
      var ok := Persist(io);
      if !ok {
        active := oldActive;
        return WriteFailed;
      }
      return Done;
    }

    method MarkConnected(name: string, now: int, io: bool) returns (status: Status)
      modifies this
      ensures Now() == Step(unescape, old(Now()), KeyOp.MarkConnected(name, now, io))
      ensures status == Outcome(unescape, old(Now()).mem, KeyOp.MarkConnected(name, now, io))
    {
      FoundWhenPresent(keys, name);
      var i := IndexOf(name);
      if i == |keys| {
        return NoSuchKey;
      }
      var oldActive, oldStamp := active, lastConnectedAt;
      active, lastConnectedAt := name, now;
      var ok := Persist(io);
      if !ok {
        active, lastConnectedAt := oldActive, oldStamp;
        return WriteFailed;
      }
      return Done;
    }
  }
}

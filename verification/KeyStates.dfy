/**
 The key list as a value: what every operation does to memory and file, for each outcome of
 the write, and what holds over all sequences of operations.
 */
module KeyStates {
  import opened Addresses
  import opened Names

  const MAX_KEYS := 128

  datatype Key = Key(name: string, url: string, labelFromURL: string, addedAt: int)

  datatype FileState = FileState(keys: seq<Key>, active: string, lastConnectedAt: int)

  const EMPTY := FileState([], "", 0)

  /** Memory and file. The file may not exist yet. */
  datatype State = State(mem: FileState, file: Option<FileState>)

  datatype Status =
    | Done
    | BadURL
    | TooManyKeys
    | DuplicateURL
    | BadName
    | NameInUse
    | NoSuchKey
    | WriteFailed

  /** The operations; `io` says whether the write to the file succeeds, `now` is the clock. */
  datatype KeyOp =
    | Add(url: string, suggested: string, addNow: int, addIo: bool)
    | Remove(name: string, removeIo: bool)
    | Rename(oldName: string, newName: string, renameIo: bool)
    | Use(useName: string, useIo: bool)
    | MarkConnected(markName: string, markNow: int, markIo: bool)

  /** Position of the first key with this name, or the number of keys. */
  function Find(keys: seq<Key>, name: string): (i: nat)
    ensures i <= |keys|
    ensures forall j :: 0 <= j < i ==> keys[j].name != name
    ensures i < |keys| ==> keys[i].name == name
  {
    if keys == [] || keys[0].name == name then 0 else 1 + Find(keys[1..], name)
  }

  predicate Has(keys: seq<Key>, name: string) {
    exists i :: 0 <= i < |keys| && keys[i].name == name
  }

  predicate HasURL(keys: seq<Key>, url: string) {
    exists i :: 0 <= i < |keys| && keys[i].url == url
  }

  function NameSet(keys: seq<Key>): (names: set<string>)
    ensures |names| <= |keys|
    ensures forall name :: name in names <==> Has(keys, name)
  {
    if keys == [] then {}
    else
      var rest := NameSet(keys[1..]);
      assert forall name :: Has(keys[1..], name) ==> Has(keys, name) by {
        forall name | Has(keys[1..], name)
          ensures Has(keys, name)
        {
          var i :| 0 <= i < |keys[1..]| && keys[1..][i].name == name;
          assert keys[i + 1].name == name;
        }
      }
      assert forall name :: Has(keys, name) ==> name == keys[0].name || Has(keys[1..], name) by {
        forall name | Has(keys, name) && name != keys[0].name
          ensures Has(keys[1..], name)
        {
          var i :| 0 <= i < |keys| && keys[i].name == name;
          assert keys[1..][i - 1].name == name;
        }
      }
      {keys[0].name} + rest
  }

  function LastHash(s: string): int
    ensures -1 <= LastHash(s) < |s|
  {
    if s == "" then -1 else if s[|s| - 1] == '#' then |s| - 1 else LastHash(s[..|s| - 1])
  }

  /** The text after the last '#', decoded if that is possible. */
  function ExtractLabel(unescape: string -> Option<string>, url: string): string {
    if LastHash(url) < 0 then ""
    else
      var raw := url[LastHash(url) + 1..];
      if unescape(raw).Some? then unescape(raw).value else raw
  }

  /** The key that Add would store. */
  function NewKey(unescape: string -> Option<string>, st: FileState, op: KeyOp): Key
    requires op.Add?
  {
    var url := TrimSpace(op.url);
    var hint := ExtractLabel(unescape, url);
    Key(if op.suggested == "" then DerivedName(hint, NameSet(st.keys)) else op.suggested, url, hint, op.addNow)
  }

  /** Everything Add checks before it changes anything. */
  function AddCheck(unescape: string -> Option<string>, st: FileState, op: KeyOp): Status
    requires op.Add?
  {
    var k := NewKey(unescape, st, op);
    if !("ss://" <= k.url) then BadURL
    else if |st.keys| >= MAX_KEYS then TooManyKeys
    else if HasURL(st.keys, k.url) then DuplicateURL
    else if !ValidName(k.name) then BadName
    else if Has(st.keys, k.name) then NameInUse
    else Done
  }

  function Check(unescape: string -> Option<string>, st: FileState, op: KeyOp): Status {
    match op
    case Add(_, _, _, _) => AddCheck(unescape, st, op)
    case Remove(name, _) => if Has(st.keys, name) then Done else NoSuchKey
    case Rename(oldName, newName, _) =>
      if !ValidName(newName) then BadName
      else if oldName == newName then Done
      else if Has(st.keys, newName) then NameInUse
      else if !Has(st.keys, oldName) then NoSuchKey
      else Done
    case Use(name, _) => if Has(st.keys, name) then Done else NoSuchKey
    case MarkConnected(name, _, _) => if Has(st.keys, name) then Done else NoSuchKey
  }

  function Dropped(keys: seq<Key>, i: nat): seq<Key>
    requires i < |keys|
  {
    keys[..i] + keys[i + 1..]
  }

  /** What the operation means, once its checks pass. */
  function Meaning(unescape: string -> Option<string>, st: FileState, op: KeyOp): FileState
    requires Check(unescape, st, op) == Done
  {
    match op
    case Add(_, _, _, _) =>
      var k := NewKey(unescape, st, op);
      st.(keys := st.keys + [k], active := if st.active == "" then k.name else st.active)
    case Remove(name, _) =>
      FoundWhenPresent(st.keys, name);
      st.(keys := Dropped(st.keys, Find(st.keys, name)), active := if st.active == name then "" else st.active)
    case Rename(oldName, newName, _) =>
      if oldName == newName then st
      else
        FoundWhenPresent(st.keys, oldName);
        var i := Find(st.keys, oldName);
        st.(keys := st.keys[i := st.keys[i].(name := newName)],
            active := if st.active == oldName then newName else st.active)
    case Use(name, _) => st.(active := name)
    case MarkConnected(name, now, _) => st.(active := name, lastConnectedAt := now)
  }

  lemma FoundWhenPresent(keys: seq<Key>, name: string)
    ensures Has(keys, name) <==> Find(keys, name) < |keys|
  {
  }

  predicate WriteSucceeds(op: KeyOp) {
    match op
    case Add(_, _, _, io) => io
    case Remove(_, io) => io
    case Rename(_, _, io) => io
    case Use(_, io) => io
    case MarkConnected(_, _, io) => io
  }

  /** Renaming a key to its own name is accepted without looking for it or writing anything. */
  predicate NoOp(op: KeyOp) {
    op.Rename? && op.oldName == op.newName
  }

  /** Memory after a failed write was rolled back: not always what it was before. */
  function RolledBack(st: FileState, after: FileState, op: KeyOp): FileState
    requires op.Remove? ==> Has(st.keys, op.name)
  {
    match op
    case Add(_, _, _, _) => st.(active := if st.keys == [] then "" else after.active)
    case Remove(name, _) =>
      FoundWhenPresent(st.keys, name);
      var i := Find(st.keys, name);
      st.(keys := Dropped(st.keys, i) + [st.keys[i]])
    case _ => st
  }

  function Outcome(unescape: string -> Option<string>, st: FileState, op: KeyOp): Status {
    var check := Check(unescape, st, op);
    if check != Done || NoOp(op) || WriteSucceeds(op) then check else WriteFailed
  }

  function Step(unescape: string -> Option<string>, s: State, op: KeyOp): State {
    if Check(unescape, s.mem, op) != Done || NoOp(op) then s
    else
      var after := Meaning(unescape, s.mem, op);
      if WriteSucceeds(op) then State(after, Some(after)) else s.(mem := RolledBack(s.mem, after, op))
  }

  /** What is read back from the file; a missing file is an empty store. */
  function OnFile(s: State): FileState {
    if s.file.Some? then s.file.value else EMPTY
  }

  // ---- Invariants ----------------------------------------------------------------

  predicate KeysOk(keys: seq<Key>) {
    && |keys| <= MAX_KEYS
    && (forall i :: 0 <= i < |keys| ==> ValidName(keys[i].name))
    && (forall i, j :: 0 <= i < j < |keys| ==> keys[i].name != keys[j].name && keys[i].url != keys[j].url)
  }

  predicate StateOk(s: State) {
    KeysOk(s.mem.keys) && (s.file.Some? ==> KeysOk(s.file.value.keys))
  }

  predicate ActiveOk(st: FileState) {
    st.active == "" || Has(st.keys, st.active)
  }

  lemma AppendKeepsKeysOk(keys: seq<Key>, k: Key)
    requires KeysOk(keys) && |keys| < MAX_KEYS && ValidName(k.name) && !Has(keys, k.name) && !HasURL(keys, k.url)
    ensures KeysOk(keys + [k])
  {
  }

  lemma DropKeepsKeysOk(keys: seq<Key>, i: nat)
    requires KeysOk(keys) && i < |keys|
    ensures KeysOk(Dropped(keys, i)) && KeysOk(Dropped(keys, i) + [keys[i]])
  {
    var rest := Dropped(keys, i);
    assert forall j :: 0 <= j < |rest| ==> rest[j] == keys[if j < i then j else j + 1];
  }

  lemma RenameKeepsKeysOk(keys: seq<Key>, i: nat, newName: string)
    requires KeysOk(keys) && i < |keys| && ValidName(newName) && !Has(keys, newName)
    ensures KeysOk(keys[i := keys[i].(name := newName)])
  {
    var after := keys[i := keys[i].(name := newName)];
    assert forall j :: 0 <= j < |keys| ==> keys[j].name != newName;
    assert forall j :: 0 <= j < |keys| ==> after[j].url == keys[j].url;
    assert forall j :: 0 <= j < |keys| && j != i ==> after[j].name == keys[j].name;
  }

  lemma MeaningKeepsKeysOk(unescape: string -> Option<string>, st: FileState, op: KeyOp)
    requires KeysOk(st.keys) && Check(unescape, st, op) == Done
    ensures KeysOk(Meaning(unescape, st, op).keys)
    ensures KeysOk(RolledBack(st, Meaning(unescape, st, op), op).keys)
  {
    match op
    case Add(_, _, _, _) =>
      AppendKeepsKeysOk(st.keys, NewKey(unescape, st, op));
    case Remove(name, _) =>
      FoundWhenPresent(st.keys, name);
      DropKeepsKeysOk(st.keys, Find(st.keys, name));
    case Rename(oldName, newName, _) =>
      if oldName != newName {
        FoundWhenPresent(st.keys, oldName);
        RenameKeepsKeysOk(st.keys, Find(st.keys, oldName), newName);
      }
    case _ =>
  }

  /** Names and URLs stay pairwise distinct, names valid and at most 128, in memory and on file. */
  lemma StepKeepsStateOk(unescape: string -> Option<string>, s: State, op: KeyOp)
    requires StateOk(s)
    ensures StateOk(Step(unescape, s, op))
  {
    if Check(unescape, s.mem, op) == Done {
      MeaningKeepsKeysOk(unescape, s.mem, op);
    }
  }

  /** An automatic name is never the reason for refusing a key. */
  lemma AutomaticNameAccepted(unescape: string -> Option<string>, st: FileState, op: KeyOp)
    requires op.Add? && op.suggested == ""
    ensures AddCheck(unescape, st, op) !in {BadName, NameInUse}
  {
    if |st.keys| < MAX_KEYS {
      DerivedNameIsFree(NewKey(unescape, st, op).labelFromURL, NameSet(st.keys));
    }
  }

  /**
   The rollback of Add clears Active exactly if no key is left. That is wrong when Active was
   set only now, next to other keys, and when it was set already although there was no key.
   */
  predicate RestoresWrongActive(unescape: string -> Option<string>, st: FileState, op: KeyOp) {
    op.Add? && !op.addIo && AddCheck(unescape, st, op) == Done && (st.keys == []) != (st.active == "")
  }

  /** The first of the two cases: the rollback leaves Active naming the key that was not stored. */
  predicate LeavesDanglingActive(unescape: string -> Option<string>, st: FileState, op: KeyOp) {
    RestoresWrongActive(unescape, st, op) && st.keys != []
  }

  lemma RemoveKeepsActive(st: FileState, name: string)
    requires KeysOk(st.keys) && ActiveOk(st) && Has(st.keys, name)
    ensures var i := (FoundWhenPresent(st.keys, name); Find(st.keys, name));
            && ActiveOk(st.(keys := Dropped(st.keys, i), active := if st.active == name then "" else st.active))
            && ActiveOk(st.(keys := Dropped(st.keys, i) + [st.keys[i]]))
  {
    FoundWhenPresent(st.keys, name);
    var i := Find(st.keys, name);
    var rest := Dropped(st.keys, i);
    assert (rest + [st.keys[i]])[|rest|].name == name;
    if st.active != "" && st.active != name {
      var j :| 0 <= j < |st.keys| && st.keys[j].name == st.active;
      assert rest[if j < i then j else j - 1].name == st.active;
      KeptNames(rest, rest + [st.keys[i]], st.active);
    }
  }

  lemma RenameKeepsActive(st: FileState, oldName: string, newName: string)
    requires ActiveOk(st) && Has(st.keys, oldName)
    ensures var i := (FoundWhenPresent(st.keys, oldName); Find(st.keys, oldName));
            ActiveOk(st.(keys := st.keys[i := st.keys[i].(name := newName)],
                         active := if st.active == oldName then newName else st.active))
  {
    FoundWhenPresent(st.keys, oldName);
    var i := Find(st.keys, oldName);
    var after := st.keys[i := st.keys[i].(name := newName)];
    assert after[i].name == newName;
    if st.active != "" && st.active != oldName {
      var j :| 0 <= j < |st.keys| && st.keys[j].name == st.active;
      assert after[j].name == st.active;
    }
  }

  lemma AddKeepsActive(unescape: string -> Option<string>, s: State, op: KeyOp)
    requires KeysOk(s.mem.keys) && ActiveOk(s.mem) && op.Add? && AddCheck(unescape, s.mem, op) == Done
    ensures ActiveOk(Step(unescape, s, op).mem) <==> !LeavesDanglingActive(unescape, s.mem, op)
  {
    var k, keys := NewKey(unescape, s.mem, op), s.mem.keys;
    AddStep(unescape, s, op);
    assert (keys + [k])[|keys|] == k;
    if op.addIo && s.mem.active != "" {
      KeptNames(keys, keys + [k], s.mem.active);
    }
  }

  /** Active keeps naming a stored key exactly unless that Add happens. */
  lemma ActiveStaysOk(unescape: string -> Option<string>, s: State, op: KeyOp)
    requires KeysOk(s.mem.keys) && ActiveOk(s.mem)
    ensures ActiveOk(Step(unescape, s, op).mem) <==> !LeavesDanglingActive(unescape, s.mem, op)
  {
    if Check(unescape, s.mem, op) == Done && !NoOp(op) {
      match op
      case Add(_, _, _, _) => AddKeepsActive(unescape, s, op);
      case Remove(name, _) => RemoveKeepsActive(s.mem, name);
      case Rename(oldName, newName, _) => RenameKeepsActive(s.mem, oldName, newName);
      case _ =>
    }
  }

  lemma KeptNames(a: seq<Key>, b: seq<Key>, name: string)
    requires a <= b && Has(a, name)
    ensures Has(b, name)
  {
    var j :| 0 <= j < |a| && a[j].name == name;
    assert b[j].name == name;
  }

  /** The states after a sequence of operations. */
  function Run(unescape: string -> Option<string>, s: State, ops: seq<KeyOp>): State
    decreases |ops|
  {
    if ops == [] then s else Run(unescape, Step(unescape, s, ops[0]), ops[1..])
  }

  /** No operation of the run leaves Active dangling. */
  predicate NeverDangles(unescape: string -> Option<string>, s: State, ops: seq<KeyOp>)
    decreases |ops|
  {
    ops != [] ==>
      !LeavesDanglingActive(unescape, s.mem, ops[0]) && NeverDangles(unescape, Step(unescape, s, ops[0]), ops[1..])
  }

  // ---- One key through an operation -------------------------------------------------

  predicate HasKey(keys: seq<Key>, name: string, url: string) {
    exists i :: 0 <= i < |keys| && keys[i].name == name && keys[i].url == url
  }

  /** What a key is called after an operation. */
  function NameAfter(unescape: string -> Option<string>, st: FileState, op: KeyOp, name: string): string {
    if op.Rename? && op.oldName == name && Outcome(unescape, st, op) == Done then op.newName else name
  }

  lemma KeptInLonger(a: seq<Key>, b: seq<Key>, name: string, url: string)
    requires HasKey(a, name, url) && a <= b
    ensures HasKey(b, name, url)
  {
    var j :| 0 <= j < |a| && a[j].name == name && a[j].url == url;
    assert b[j] == a[j];
  }

  lemma KeptWhenOtherDropped(keys: seq<Key>, i: nat, name: string, url: string)
    requires HasKey(keys, name, url) && i < |keys| && keys[i].name != name
    ensures HasKey(Dropped(keys, i), name, url) && HasKey(Dropped(keys, i) + [keys[i]], name, url)
  {
    var j :| 0 <= j < |keys| && keys[j].name == name && keys[j].url == url;
    assert Dropped(keys, i)[if j < i then j else j - 1] == keys[j];
    KeptInLonger(Dropped(keys, i), Dropped(keys, i) + [keys[i]], name, url);
  }

  lemma KeptWhenRenamed(keys: seq<Key>, i: nat, newName: string, name: string, url: string)
    requires KeysOk(keys) && HasKey(keys, name, url) && i < |keys|
    ensures HasKey(keys[i := keys[i].(name := newName)], if keys[i].name == name then newName else name, url)
  {
    var after := keys[i := keys[i].(name := newName)];
    var j :| 0 <= j < |keys| && keys[j].name == name && keys[j].url == url;
    assert j == i <==> keys[i].name == name;
    assert after[j].url == url && after[j].name == if j == i then newName else name;
  }

  /** Unless it is removed, a stored key keeps its URL and stays stored under its current name. */
  lemma KeySurvives(unescape: string -> Option<string>, s: State, op: KeyOp, name: string, url: string)
    requires StateOk(s) && HasKey(s.mem.keys, name, url) && !(op.Remove? && op.name == name)
    ensures HasKey(Step(unescape, s, op).mem.keys, NameAfter(unescape, s.mem, op, name), url)
  {
    var keys := s.mem.keys;
    if Check(unescape, s.mem, op) == Done && !NoOp(op) {
      match op
      case Add(_, _, _, _) =>
        KeptInLonger(keys, keys + [NewKey(unescape, s.mem, op)], name, url);
      case Remove(gone, _) =>
        FoundWhenPresent(keys, gone);
        KeptWhenOtherDropped(keys, Find(keys, gone), name, url);
      case Rename(oldName, newName, _) =>
        FoundWhenPresent(keys, oldName);
        KeptWhenRenamed(keys, Find(keys, oldName), newName, name, url);
      case _ =>
    }
  }

  /** A write of a new key, done or rolled back. */
  lemma AddStep(unescape: string -> Option<string>, s: State, op: KeyOp)
    requires op.Add? && AddCheck(unescape, s.mem, op) == Done
    ensures var k := NewKey(unescape, s.mem, op);
            var active := if s.mem.active == "" then k.name else s.mem.active;
            var after := s.mem.(keys := s.mem.keys + [k], active := active);
            && Step(unescape, s, op) ==
                 (if op.addIo then State(after, Some(after))
                  else s.(mem := s.mem.(active := if s.mem.keys == [] then "" else active)))
            && Outcome(unescape, s.mem, op) == if op.addIo then Done else WriteFailed
  {
  }

  // ---- Listing -------------------------------------------------------------------

  predicate ByTime(keys: seq<Key>) {
    forall i, j :: 0 <= i < j < |keys| ==> keys[i].addedAt <= keys[j].addedAt
  }

  function InsertByTime(keys: seq<Key>, k: Key): seq<Key> {
    if keys == [] || keys[0].addedAt > k.addedAt then [k] + keys
    else [keys[0]] + InsertByTime(keys[1..], k)
  }

  /** The stable sort by time of addition. */
  function Listed(keys: seq<Key>): seq<Key> {
    if keys == [] then [] else InsertByTime(Listed(keys[..|keys| - 1]), keys[|keys| - 1])
  }

  /** The keys added at t, in list order. */
  function AddedAt(keys: seq<Key>, t: int): seq<Key> {
    if keys == [] then [] else (if keys[0].addedAt == t then [keys[0]] else []) + AddedAt(keys[1..], t)
  }

  lemma {:induction false} AddedAtAppend(a: seq<Key>, b: seq<Key>, t: int)
    ensures AddedAt(a + b, t) == AddedAt(a, t) + AddedAt(b, t)
  {
    if a == [] {
      assert a + b == b;
    } else {
      assert (a + b)[1..] == a[1..] + b && (a + b)[0] == a[0];
      AddedAtAppend(a[1..], b, t);
      var head := if a[0].addedAt == t then [a[0]] else [];
      assert AddedAt(a, t) == head + AddedAt(a[1..], t);
      assert AddedAt(a + b, t) == head + AddedAt(a[1..] + b, t);
    }
  }

  lemma AddedAtOne(k: Key, t: int)
    ensures AddedAt([k], t) == if k.addedAt == t then [k] else []
  {
    assert [k][1..] == [];
  }

  lemma {:induction false} AddedAtNone(keys: seq<Key>, t: int)
    ensures AddedAt(keys, t) == [] <==> forall i :: 0 <= i < |keys| ==> keys[i].addedAt != t
    ensures forall k :: k in AddedAt(keys, t) ==> k in keys && k.addedAt == t
  {
    if keys != [] {
      AddedAtNone(keys[1..], t);
      assert forall i :: 1 <= i < |keys| ==> keys[i] == keys[1..][i - 1];
    }
  }

  lemma {:induction false} InsertByTimeFacts(keys: seq<Key>, k: Key, t: int)
    requires ByTime(keys)
    ensures ByTime(InsertByTime(keys, k))
    ensures forall q :: q in InsertByTime(keys, k) <==> q in keys || q == k
    ensures AddedAt(InsertByTime(keys, k), t) == AddedAt(keys, t) + (if k.addedAt == t then [k] else [])
  {
    if keys == [] || keys[0].addedAt > k.addedAt {
      assert ([k] + keys)[1..] == keys;
      AddedAtNone(keys, k.addedAt);
    } else {
      InsertByTimeFacts(keys[1..], k, t);
      var rest := InsertByTime(keys[1..], k);
      forall j | 0 <= j < |rest|
        ensures keys[0].addedAt <= rest[j].addedAt
      {
        assert rest[j] in rest;
      }
      var head := if keys[0].addedAt == t then [keys[0]] else [];
      assert AddedAt(InsertByTime(keys, k), t) == head + AddedAt(rest, t);
      assert AddedAt(keys, t) == head + AddedAt(keys[1..], t);
    }
  }

  /** The listing is ordered, and keys added at the same moment keep their order. */
  lemma {:induction false} ListedIsStable(keys: seq<Key>, t: int)
    ensures ByTime(Listed(keys))
    ensures AddedAt(Listed(keys), t) == AddedAt(keys, t)
  {
    if keys != [] {
      var n := |keys| - 1;
      ListedIsStable(keys[..n], t);
      InsertByTimeFacts(Listed(keys[..n]), keys[n], t);
      assert keys == keys[..n] + [keys[n]];
      AddedAtAppend(keys[..n], [keys[n]], t);
      AddedAtOne(keys[n], t);
    }
  }

  lemma FirstGroupNotEmpty(keys: seq<Key>)
    requires keys != []
    ensures exists t :: AddedAt(keys, t) != []
  {
    assert AddedAt(keys, keys[0].addedAt)[0] == keys[0];
  }

  /** An ordered list is determined by its groups of equal time. */
  lemma {:induction false} GroupsDetermine(a: seq<Key>, b: seq<Key>)
    requires ByTime(a) && ByTime(b) && forall t :: AddedAt(a, t) == AddedAt(b, t)
    ensures a == b
  {
    if a == [] {
      if b != [] {
        FirstGroupNotEmpty(b);
        assert false;
      }
    } else {
      AddedAtNone(b, a[0].addedAt);
      assert AddedAt(a, a[0].addedAt)[0] == a[0];
      AddedAtNone(a, b[0].addedAt);
      assert AddedAt(b, b[0].addedAt)[0] == b[0];
      assert a[0] == b[0];
      forall t
        ensures AddedAt(a[1..], t) == AddedAt(b[1..], t)
      {
        var head := if a[0].addedAt == t then [a[0]] else [];
        assert AddedAt(a, t) == head + AddedAt(a[1..], t);
        assert AddedAt(b, t) == head + AddedAt(b[1..], t);
        assert AddedAt(a[1..], t) == AddedAt(a, t)[|head|..];
        assert AddedAt(b[1..], t) == AddedAt(b, t)[|head|..];
      }
      GroupsDetermine(a[1..], b[1..]);
      assert a == [a[0]] + a[1..] && b == [b[0]] + b[1..];
    }
  }

  lemma SameGroupsSameListing(a: seq<Key>, b: seq<Key>)
    requires forall t :: AddedAt(a, t) == AddedAt(b, t)
    ensures Listed(a) == Listed(b)
  {
    forall t
      ensures ByTime(Listed(a)) && ByTime(Listed(b)) && AddedAt(Listed(a), t) == AddedAt(Listed(b), t)
    {
      ListedIsStable(a, t);
      ListedIsStable(b, t);
    }
    ListedIsStable(a, 0);
    ListedIsStable(b, 0);
    GroupsDetermine(Listed(a), Listed(b));
  }

  lemma SameListingSameGroup(a: seq<Key>, b: seq<Key>, t: int)
    requires Listed(a) == Listed(b)
    ensures AddedAt(a, t) == AddedAt(b, t)
  {
    ListedIsStable(a, t);
    ListedIsStable(b, t);
  }

  /** Some later key carries the same time stamp. */
  predicate SharesTimeLater(keys: seq<Key>, i: nat)
    requires i < |keys|
  {
    exists j :: i < j < |keys| && keys[j].addedAt == keys[i].addedAt
  }

  /** The keys added at t, before and after key i moved to the end. */
  lemma GroupsAfterMove(keys: seq<Key>, i: nat, t: int)
    requires i < |keys|
    ensures var k := keys[i];
            var x, y := AddedAt(keys[..i], t), AddedAt(keys[i + 1..], t);
            var own := if k.addedAt == t then [k] else [];
            && AddedAt(keys, t) == x + own + y
            && AddedAt(Dropped(keys, i) + [k], t) == x + y + own
  {
    var k, x, y := keys[i], keys[..i], keys[i + 1..];
    assert keys == x + [k] + y;
    AddedAtAppend(x + [k], y, t);
    AddedAtAppend(x, [k], t);
    AddedAtAppend(x + y, [k], t);
    AddedAtAppend(x, y, t);
    AddedAtOne(k, t);
  }

  lemma MoveIsVisible(keys: seq<Key>, i: nat, j: nat)
    requires i < j < |keys| && KeysOk(keys) && keys[j].addedAt == keys[i].addedAt
    ensures Listed(Dropped(keys, i) + [keys[i]]) != Listed(keys)
  {
    var k, t := keys[i], keys[i].addedAt;
    var moved := Dropped(keys, i) + [k];
    var x, y := AddedAt(keys[..i], t), AddedAt(keys[i + 1..], t);
    GroupsAfterMove(keys, i, t);
    AddedAtNone(keys[i + 1..], t);
    assert keys[i + 1..][j - i - 1].addedAt == t;
    assert y != [] && y[0] in keys[i + 1..];
    assert y[0] != k;
    assert AddedAt(keys, t)[|x|] == k && AddedAt(moved, t)[|x|] == y[0];
    if Listed(moved) == Listed(keys) {
      SameListingSameGroup(moved, keys, t);
    }
  }

  lemma MoveIsInvisible(keys: seq<Key>, i: nat)
    requires i < |keys| && !SharesTimeLater(keys, i)
    ensures Listed(Dropped(keys, i) + [keys[i]]) == Listed(keys)
  {
    var y := keys[i + 1..];
    AddedAtNone(y, keys[i].addedAt);
    forall j | 0 <= j < |y|
      ensures y[j].addedAt != keys[i].addedAt
    {
      assert y[j] == keys[i + 1 + j];
    }
    assert AddedAt(y, keys[i].addedAt) == [];
    forall t
      ensures AddedAt(Dropped(keys, i) + [keys[i]], t) == AddedAt(keys, t)
    {
      GroupsAfterMove(keys, i, t);
    }
    SameGroupsSameListing(Dropped(keys, i) + [keys[i]], keys);
  }

  /** Moving key i to the end is invisible in the listing exactly if no later key has its time stamp. */
  lemma MovedToEnd(keys: seq<Key>, i: nat)
    requires i < |keys| && KeysOk(keys)
    ensures Listed(Dropped(keys, i) + [keys[i]]) == Listed(keys) <==> !SharesTimeLater(keys, i)
  {
    if SharesTimeLater(keys, i) {
      var j :| i < j < |keys| && keys[j].addedAt == keys[i].addedAt;
      MoveIsVisible(keys, i, j);
    } else {
      MoveIsInvisible(keys, i);
    }
  }

  /** The failed Remove whose rollback shows: a later key has the removed key's time stamp. */
  predicate ReordersListing(st: FileState, op: KeyOp) {
    && op.Remove? && !op.removeIo && Has(st.keys, op.name)
    && (FoundWhenPresent(st.keys, op.name); SharesTimeLater(st.keys, Find(st.keys, op.name)))
  }

  lemma MoveKeepsKeys(keys: seq<Key>, i: nat)
    requires i < |keys|
    ensures multiset(Dropped(keys, i) + [keys[i]]) == multiset(keys)
  {
    assert keys == keys[..i] + [keys[i]] + keys[i + 1..];
  }

  lemma RemoveRollback(st: FileState, name: string, io: bool)
    requires KeysOk(st.keys) && Has(st.keys, name) && !io
    ensures var keys := RolledBack(st, st, Remove(name, io)).keys;
            && multiset(keys) == multiset(st.keys)
            && (Listed(keys) == Listed(st.keys) <==> !ReordersListing(st, Remove(name, io)))
  {
    FoundWhenPresent(st.keys, name);
    var i := Find(st.keys, name);
    MovedToEnd(st.keys, i);
    MoveKeepsKeys(st.keys, i);
    assert RolledBack(st, st, Remove(name, io)).keys == Dropped(st.keys, i) + [st.keys[i]];
  }

  lemma AddRollback(unescape: string -> Option<string>, st: FileState, op: KeyOp)
    requires op.Add? && !op.addIo && AddCheck(unescape, st, op) == Done
    ensures var back := RolledBack(st, Meaning(unescape, st, op), op);
            back.keys == st.keys && (back.active == st.active <==> !RestoresWrongActive(unescape, st, op))
  {
    if st.active == "" && st.keys != [] {
      assert ValidName(NewKey(unescape, st, op).name);
    }
  }

  /**
   Every operation is a transaction: done, with memory and file both equal to its meaning,
   or refused, with file and time stamp unchanged, Active unchanged exactly unless the rollback
   of Add restores the wrong one, and the listing unchanged exactly unless the rollback of
   Remove shows. This holds in every state with sound keys, whatever Active says.
   */
  lemma StepIsTransaction(unescape: string -> Option<string>, s: State, op: KeyOp)
    requires KeysOk(s.mem.keys)
    ensures Outcome(unescape, s.mem, op) == Done && !NoOp(op) ==>
              Step(unescape, s, op) == State(Meaning(unescape, s.mem, op), Some(Meaning(unescape, s.mem, op)))
    ensures NoOp(op) ==> Step(unescape, s, op) == s
    ensures var t := Step(unescape, s, op);
            Outcome(unescape, s.mem, op) != Done ==>
              && t.file == s.file
              && t.mem.lastConnectedAt == s.mem.lastConnectedAt
              && multiset(t.mem.keys) == multiset(s.mem.keys)
              && (t.mem.active == s.mem.active <==> !RestoresWrongActive(unescape, s.mem, op))
              && (Listed(t.mem.keys) == Listed(s.mem.keys) <==> !ReordersListing(s.mem, op))
  {
    if Check(unescape, s.mem, op) == Done && !NoOp(op) && !WriteSucceeds(op) {
      match op
      case Add(_, _, _, _) => AddRollback(unescape, s.mem, op);
      case Remove(name, io) => RemoveRollback(s.mem, name, io);
      case _ =>
    }
  }

  // ---- Whole runs ------------------------------------------------------------------------

  /** Active names a stored key or none, in memory and on file. */
  predicate ActiveSound(s: State) {
    ActiveOk(s.mem) && ActiveOk(OnFile(s))
  }

  /** Memory and file hold the same keys, if not in the same order, and the same time stamp. */
  predicate InStep(s: State) {
    multiset(s.mem.keys) == multiset(OnFile(s).keys) && s.mem.lastConnectedAt == OnFile(s).lastConnectedAt
  }

  lemma StepKeepsInStep(unescape: string -> Option<string>, s: State, op: KeyOp)
    requires KeysOk(s.mem.keys) && InStep(s)
    ensures InStep(Step(unescape, s, op))
  {
    hide Step, Outcome, Meaning, Listed;
    StepIsTransaction(unescape, s, op);
  }

  lemma StepKeepsActiveSound(unescape: string -> Option<string>, s: State, op: KeyOp)
    requires KeysOk(s.mem.keys) && ActiveSound(s)
    ensures ActiveSound(Step(unescape, s, op)) <==> !LeavesDanglingActive(unescape, s.mem, op)
  {
    hide Step, Meaning, Listed, ActiveOk, LeavesDanglingActive;
    ActiveStaysOk(unescape, s, op);
    StepIsTransaction(unescape, s, op);
  }

  lemma RunPrefix(unescape: string -> Option<string>, s: State, ops: seq<KeyOp>, n: nat)
    requires 0 < n <= |ops|
    ensures Run(unescape, s, ops[..n]) == Run(unescape, Step(unescape, s, ops[0]), ops[1..][..n - 1])
  {
    assert ops[..n][0] == ops[0] && ops[..n][1..] == ops[1..][..n - 1];
  }

  /** Active names a stored key or none at every point of a run, exactly if no operation leaves it dangling. */
  lemma {:induction false} ActiveThroughout(unescape: string -> Option<string>, s: State, ops: seq<KeyOp>)
    requires StateOk(s) && ActiveSound(s)
    ensures (forall n: nat | n <= |ops| :: ActiveSound(Run(unescape, s, ops[..n]))) <==> NeverDangles(unescape, s, ops)
    decreases |ops|
  {
    hide Step, StateOk, ActiveSound, LeavesDanglingActive;
    assert ops[..0] == [];
    if ops != [] {
      var t, rest := Step(unescape, s, ops[0]), ops[1..];
      StepKeepsStateOk(unescape, s, ops[0]);
      KeysOkInMemory(s);
      StepKeepsActiveSound(unescape, s, ops[0]);
      RunPrefix(unescape, s, ops, 1);
      assert rest[..0] == [];
      if ActiveSound(t) {
        ActiveThroughout(unescape, t, rest);
        if NeverDangles(unescape, t, rest) {
          forall n: nat | n <= |ops|
            ensures ActiveSound(Run(unescape, s, ops[..n]))
          {
            if n > 0 {
              RunPrefix(unescape, s, ops, n);
              assert ActiveSound(Run(unescape, t, rest[..n - 1]));
            }
          }
        } else {
          var n: nat :| n <= |rest| && !ActiveSound(Run(unescape, t, rest[..n]));
          RunPrefix(unescape, s, ops, n + 1);
        }
      } else {
        assert !ActiveSound(Run(unescape, s, ops[..1]));
      }
    }
  }

  lemma KeysOkInMemory(s: State)
    requires StateOk(s)
    ensures KeysOk(s.mem.keys)
  {
  }

  lemma {:induction false} RunKeepsInvariants(unescape: string -> Option<string>, s: State, ops: seq<KeyOp>)
    requires StateOk(s) && InStep(s)
    ensures StateOk(Run(unescape, s, ops)) && InStep(Run(unescape, s, ops))
    decreases |ops|
  {
    if ops != [] {
      StepKeepsStateOk(unescape, s, ops[0]);
      StepKeepsInStep(unescape, s, ops[0]);
      RunKeepsInvariants(unescape, Step(unescape, s, ops[0]), ops[1..]);
    }
  }

  /**
   From an empty store, whatever is asked of it and whichever writes fail: names and URLs are
   distinct, names valid and at most 128, a crash loses no key, and Active is sound throughout,
   in memory and on file, exactly if the bad rollback never happens.
   */
  lemma EveryRunFromEmpty(unescape: string -> Option<string>, ops: seq<KeyOp>)
    ensures var s := Run(unescape, State(EMPTY, None), ops);
            && StateOk(s) && InStep(s)
            && (forall name, url :: HasKey(OnFile(s).keys, name, url) <==> HasKey(s.mem.keys, name, url))
    ensures (forall n: nat | n <= |ops| :: ActiveSound(Run(unescape, State(EMPTY, None), ops[..n])))
            <==> NeverDangles(unescape, State(EMPTY, None), ops)
  {
    var s := Run(unescape, State(EMPTY, None), ops);
    RunKeepsInvariants(unescape, State(EMPTY, None), ops);
    ActiveThroughout(unescape, State(EMPTY, None), ops);
    forall name, url
      ensures HasKey(OnFile(s).keys, name, url) <==> HasKey(s.mem.keys, name, url)
    {
      if HasKey(OnFile(s).keys, name, url) {
        SameKeys(OnFile(s).keys, s.mem.keys, name, url);
      }
      if HasKey(s.mem.keys, name, url) {
        SameKeys(s.mem.keys, OnFile(s).keys, name, url);
      }
    }
  }

  lemma SameKeys(a: seq<Key>, b: seq<Key>, name: string, url: string)
    requires multiset(a) == multiset(b) && HasKey(a, name, url)
    ensures HasKey(b, name, url)
  {
    var i :| 0 <= i < |a| && a[i].name == name && a[i].url == url;
    assert a[i] in multiset(a);
    assert a[i] in b;
  }

  // ---- Runs on which the rollbacks show ------------------------------------------------

  /** Adding a key under a free name of its own choice passes the checks. */
  lemma PlainAdd(unescape: string -> Option<string>, st: FileState, op: KeyOp)
    requires op.Add? && ValidName(op.suggested) && "ss://" <= op.url && TrimSpace(op.url) == op.url
    requires |st.keys| < MAX_KEYS && !HasURL(st.keys, op.url) && !Has(st.keys, op.suggested)
    ensures AddCheck(unescape, st, op) == Done
    ensures NewKey(unescape, st, op).name == op.suggested && NewKey(unescape, st, op).url == op.url
    ensures NewKey(unescape, st, op).addedAt == op.addNow
  {
  }

  lemma {:induction false} RunOneMore(unescape: string -> Option<string>, s: State, ops: seq<KeyOp>, op: KeyOp)
    ensures Run(unescape, s, ops + [op]) == Step(unescape, Run(unescape, s, ops), op)
    decreases |ops|
  {
    if ops == [] {
      assert ops + [op] == [op] && [op][1..] == [];
      assert Run(unescape, Step(unescape, s, op), []) == Step(unescape, s, op);
    } else {
      assert (ops + [op])[1..] == ops[1..] + [op];
      RunOneMore(unescape, Step(unescape, s, ops[0]), ops[1..], op);
    }
  }

  const ADD_A := Add("ss://a", "a", 0, true)
  const ADD_B := Add("ss://b", "b", 0, true)
  const ADD_C_FAILS := Add("ss://c", "c", 0, false)
  const ADD_D_FAILS := Add("ss://d", "d", 0, false)

  /** Removing the first key, when the write succeeds. */
  lemma RemoveFirst(unescape: string -> Option<string>, s: State, name: string)
    requires s.mem.keys != [] && s.mem.keys[0].name == name
    ensures var after := s.mem.(keys := s.mem.keys[1..], active := if s.mem.active == name then "" else s.mem.active);
            Step(unescape, s, Remove(name, true)) == State(after, Some(after))
  {
    var keys := s.mem.keys;
    FoundWhenPresent(keys, name);
    assert Find(keys, name) == 0;
    assert Dropped(keys, 0) == keys[1..];
  }

  /** Two keys added in the same moment; the first one becomes active. */
  lemma TwoKeys(unescape: string -> Option<string>) returns (a: Key, b: Key)
    ensures a.name == "a" && a.url == "ss://a" && b.name == "b" && b.url == "ss://b" && a.addedAt == b.addedAt == 0
    ensures Run(unescape, State(EMPTY, None), [ADD_A, ADD_B]).mem == FileState([a, b], "a", 0)
  {
    var s := State(EMPTY, None);
    PlainAdd(unescape, s.mem, ADD_A);
    AddStep(unescape, s, ADD_A);
    a := NewKey(unescape, s.mem, ADD_A);
    RunOneMore(unescape, s, [], ADD_A);
    assert [] + [ADD_A] == [ADD_A];
    var s1 := Run(unescape, s, [ADD_A]);
    assert s1.mem == FileState([a], "a", 0);
    PlainAdd(unescape, s1.mem, ADD_B);
    AddStep(unescape, s1, ADD_B);
    b := NewKey(unescape, s1.mem, ADD_B);
    RunOneMore(unescape, s, [ADD_A], ADD_B);
    assert [ADD_A] + [ADD_B] == [ADD_A, ADD_B];
  }

  /** From an empty store, a failed Remove that reorders the listing. */
  lemma FailedRemoveReorders(unescape: string -> Option<string>)
    ensures var s := Run(unescape, State(EMPTY, None), [ADD_A, ADD_B]);
            && Outcome(unescape, s.mem, Remove("a", false)) == WriteFailed
            && Listed(Step(unescape, s, Remove("a", false)).mem.keys) != Listed(s.mem.keys)
  {
    hide Run, Listed;
    var a, b := TwoKeys(unescape);
    var s := Run(unescape, State(EMPTY, None), [ADD_A, ADD_B]);
    EveryRunFromEmpty(unescape, [ADD_A, ADD_B]);
    FoundWhenPresent(s.mem.keys, "a");
    assert s.mem.keys[0].name == "a" && s.mem.keys[1].addedAt == s.mem.keys[0].addedAt;
    assert SharesTimeLater(s.mem.keys, 0);
    StepIsTransaction(unescape, s, Remove("a", false));
  }

  /** With b stored and nothing active, a failed Add leaves Active naming a key that is not stored. */
  lemma DanglingRun(unescape: string -> Option<string>) returns (b: Key)
    ensures b.name == "b" && b.url == "ss://b"
    ensures Run(unescape, State(EMPTY, None), [ADD_A, ADD_B, Remove("a", true), ADD_C_FAILS]).mem == FileState([b], "c", 0)
  {
    hide Run, Step;
    var a: Key;
    a, b := TwoKeys(unescape);
    var s := State(EMPTY, None);
    var ops := [ADD_A, ADD_B];
    RunOneMore(unescape, s, ops, Remove("a", true));
    RunOneMore(unescape, s, ops + [Remove("a", true)], ADD_C_FAILS);
    assert ops + [Remove("a", true)] + [ADD_C_FAILS] == [ADD_A, ADD_B, Remove("a", true), ADD_C_FAILS];
    var left := Run(unescape, s, ops + [Remove("a", true)]);
    RemoveFirst(unescape, Run(unescape, s, ops), "a");
    assert [a, b][1..] == [b];
    assert left.mem == FileState([b], "", 0);
    PlainAdd(unescape, left.mem, ADD_C_FAILS);
    AddStep(unescape, left, ADD_C_FAILS);
  }

  /**
   From an empty store, both ways in which the rollback of Add restores the wrong Active: a
   failed Add leaves Active naming a key that is not stored; and when the last stored key is
   removed, the next failed Add clears that Active again.
   */
  lemma FailedAddsShow(unescape: string -> Option<string>)
    ensures var dangling := Run(unescape, State(EMPTY, None), [ADD_A, ADD_B, Remove("a", true), ADD_C_FAILS]);
            var emptied := Step(unescape, dangling, Remove("b", true));
            && dangling.mem.active == "c" && !ActiveOk(dangling.mem)
            && emptied.mem.keys == [] && emptied.mem.active == "c" && emptied.file == Some(emptied.mem)
            && Outcome(unescape, emptied.mem, ADD_D_FAILS) == WriteFailed
            && Step(unescape, emptied, ADD_D_FAILS).mem.active == ""
  {
    hide Run, Step;
    var b := DanglingRun(unescape);
    var dangling := Run(unescape, State(EMPTY, None), [ADD_A, ADD_B, Remove("a", true), ADD_C_FAILS]);
    RemoveFirst(unescape, dangling, "b");
    var emptied := Step(unescape, dangling, Remove("b", true));
    PlainAdd(unescape, emptied.mem, ADD_D_FAILS);
    AddStep(unescape, emptied, ADD_D_FAILS);
  }
}

/**
 Writing the managed keys into a user's config file, and taking them out again after the
 user may have edited it.
 */
module ConfigInstall {
  import opened Common

  type Key = string

  datatype Value = Text(text: string) | Flag(flag: bool) | Number(number: int) | Null
                 | List(items: seq<Value>) | Fields(fields: map<string, Value>)

  type Settings = map<Key, Value>

  /** The text of a config file, seen as the values it holds and everything else about it. */
  datatype ConfigFile = Absent | Present(settings: Settings, layout: string)

  /** How the config command lays the file out when it writes it. */
  type Writer = (Settings, string) -> string

  function SettingsOf(f: ConfigFile): Settings {
    if f.Absent? then map[] else f.settings
  }

  function LayoutOf(f: ConfigFile): string {
    if f.Absent? then "" else f.layout
  }

  function Get(f: ConfigFile, key: Key): Option<Value> {
    if key in SettingsOf(f) then Some(SettingsOf(f)[key]) else None
  }

  /** The digest of a missing file is that of an empty one; otherwise the digest tells texts apart. */
  function Digest(f: ConfigFile): (Settings, string) {
    (SettingsOf(f), LayoutOf(f))
  }

  function Set(writer: Writer, f: ConfigFile, key: Key, value: Option<Value>): ConfigFile {
    var settings := if value.Some? then SettingsOf(f)[key := value.value] else SettingsOf(f) - {key};
    Present(settings, writer(settings, LayoutOf(f)))
  }

  // ---------------------------------------------------------------- planning

  /** Strings in order of first occurrence. */
  function Distinct(strings: seq<string>): seq<string> {
    if strings == [] then []
    else
      var init, last := Distinct(strings[..|strings| - 1]), strings[|strings| - 1];
      if last in init then init else init + [last]
  }

  function UnionStrings(left: seq<string>, right: seq<string>): seq<string> {
    Distinct(left + right)
  }

  function NonEmptyTexts(items: seq<Value>): seq<string> {
    if items == [] then []
    else (if items[0].Text? && items[0].text != "" then [items[0].text] else []) + NonEmptyTexts(items[1..])
  }

  function NormalizeStrings(value: Option<Value>): seq<string> {
    if value.Some? && value.value.List? then NonEmptyTexts(value.value.items) else []
  }

  function Texts(strings: seq<string>): Value {
    List(seq(|strings|, i requires 0 <= i < |strings| => Text(strings[i])))
  }

  datatype Managed = Fixed(key: Key, value: Value) | Joined(key: Key, required: seq<string>)

  function AppliedValue(f: ConfigFile, m: Managed): Value {
    match m
    case Fixed(_, value) => value
    case Joined(key, required) => Texts(UnionStrings(NormalizeStrings(Get(f, key)), required))
  }

  datatype Mutation = Mutation(key: Key, previous: Option<Value>, applied: Value)

  function Plan(f: ConfigFile, managed: seq<Managed>): seq<Mutation> {
    seq(|managed|, i requires 0 <= i < |managed| =>
      Mutation(managed[i].key, Get(f, managed[i].key), AppliedValue(f, managed[i])))
  }

  const DENIED_CORE_TOOLS: seq<string> := ["exec", "process", "write", "edit", "apply_patch"]

  const PLUGIN_ID := "agentgit"

  /** The five keys of the OpenClaw adapter; a plugin root or id is required only if it is not empty. */
  function OpenClawKeys(workspaceRoot: string, pluginRoot: string): seq<Managed> {
    [Fixed("agents.defaults.workspace", Text(workspaceRoot)),
     Joined("tools.deny", DENIED_CORE_TOOLS),
     Joined("plugins.load.paths", if pluginRoot != "" then [pluginRoot] else []),
     Joined("plugins.allow", if PLUGIN_ID != "" then [PLUGIN_ID] else []),
     Fixed("plugins.entries.agentgit.enabled", Flag(true))]
  }

  predicate DistinctKeys(managed: seq<Managed>) {
    forall i, j :: 0 <= i < j < |managed| ==> managed[i].key != managed[j].key
  }

  predicate RequiredNonEmpty(managed: seq<Managed>) {
    forall i :: 0 <= i < |managed| && managed[i].Joined? ==> "" !in managed[i].required
  }

  lemma OpenClawKeysAreSound(workspaceRoot: string, pluginRoot: string)
    ensures DistinctKeys(OpenClawKeys(workspaceRoot, pluginRoot))
    ensures RequiredNonEmpty(OpenClawKeys(workspaceRoot, pluginRoot))
  {
    var keys := ["agents.defaults.workspace", "tools.deny", "plugins.load.paths", "plugins.allow",
                 "plugins.entries.agentgit.enabled"];
    assert |keys[0]| == 25 && |keys[1]| == 10 && |keys[2]| == 18 && |keys[3]| == 13 && |keys[4]| == 32;
    assert forall i :: 0 <= i < 5 ==> |DENIED_CORE_TOOLS[i]| > 0;
  }

  // ---------------------------------------------------------------- applying and rolling back

  datatype Install = Install(mutations: seq<Mutation>, digestAfter: (Settings, string), backup: Option<ConfigFile>)

  predicate ConfigChanged(f: ConfigFile, ms: seq<Mutation>) {
    exists i :: 0 <= i < |ms| && Get(f, ms[i].key) != Some(ms[i].applied)
  }

  function WriteAll(writer: Writer, f: ConfigFile, ms: seq<Mutation>): ConfigFile
    decreases |ms|
  {
    if ms == [] then f else WriteAll(writer, Set(writer, f, ms[0].key, Some(ms[0].applied)), ms[1..])
  }

  datatype Undo = Undo(file: ConfigFile, preserved: seq<Key>, changed: bool)

  function UndoOne(writer: Writer, install: Install, m: Mutation, u: Undo): Undo {
    if install.backup.Some? && Digest(u.file) == install.digestAfter then Undo(install.backup.value, u.preserved, true)
    else if Get(u.file, m.key) != Some(m.applied) then
      if Get(u.file, m.key) != m.previous then u.(preserved := u.preserved + [m.key]) else u
    else Undo(Set(writer, u.file, m.key, m.previous), u.preserved, true)
  }

  /** Undoing the first `n` mutations in order. */
  function UndoUpTo(writer: Writer, install: Install, u: Undo, n: nat): Undo
    requires n <= |install.mutations|
  {
    if n == 0 then u else UndoOne(writer, install, install.mutations[n - 1], UndoUpTo(writer, install, u, n - 1))
  }

  function Rollback(writer: Writer, install: Install, f: ConfigFile): Undo {
    UndoUpTo(writer, install, Undo(f, [], false), |install.mutations|)
  }

  class OpenClawConfig {
    var file: ConfigFile
    const writer: Writer

    constructor (file: ConfigFile, writer: Writer)
      ensures this.file == file && this.writer == writer
    {
      this.file, this.writer := file, writer;
    }

    /** Writes the planned values unless all are there already; the install it returns keeps the old file. */
    method Apply(ms: seq<Mutation>, assetsReady: bool) returns (changed: bool, install: Install)
      modifies this
      ensures var differs := exists i :: 0 <= i < |ms| && Get(old(file), ms[i].key) != Some(ms[i].applied);
              && changed == (differs || !assetsReady)
              && file == (if differs then WriteAll(writer, old(file), ms) else old(file))
              && install == Install(ms, Digest(file), if differs then Some(old(file)) else None)
    {
      var configChanged := false;
      for i := 0 to |ms|
        invariant configChanged <==> exists k :: 0 <= k < i && Get(file, ms[k].key) != Some(ms[k].applied)
      {
        configChanged := configChanged || Get(file, ms[i].key) != Some(ms[i].applied);
      }
      var backup := None;
      if configChanged {
        backup := Some(file);
        for i := 0 to |ms|
          invariant WriteAll(writer, file, ms[i..]) == WriteAll(writer, old(file), ms)
        {
          assert ms[i..][0] == ms[i] && ms[i..][1..] == ms[i + 1..];
          file := Set(writer, file, ms[i].key, Some(ms[i].applied));
        }
      }
      install := Install(ms, Digest(file), backup);
      changed := configChanged || !assetsReady;
    }

    method Uninstall(install: Install) returns (preserved: seq<Key>, changed: bool)
      modifies this
      ensures Undo(file, preserved, changed) == Rollback(writer, install, old(file))
    {
      preserved, changed := [], false;
      for i := 0 to |install.mutations|
        invariant Undo(file, preserved, changed) == UndoUpTo(writer, install, Undo(old(file), [], false), i)
      {
        var mutation := install.mutations[i];
        var currentValue := Get(file, mutation.key);
        if install.backup.Some? && Digest(file) == install.digestAfter {
          file := install.backup.value;
          changed := true;
          continue;
        }
        if currentValue != Some(mutation.applied) {
          if currentValue != mutation.previous {
            preserved := preserved + [mutation.key];
          }
          continue;
        }
        file := Set(writer, file, mutation.key, mutation.previous);
        changed := true;
      }
    }
  }

  // ---------------------------------------------------------------- one install

  predicate PlannedFor(f: ConfigFile, ms: seq<Mutation>) {
    && (forall i, j :: 0 <= i < j < |ms| ==> ms[i].key != ms[j].key)
    && (forall i :: 0 <= i < |ms| ==> ms[i].previous == Get(f, ms[i].key))
  }

  predicate IsManaged(ms: seq<Mutation>, key: Key) {
    exists i :: 0 <= i < |ms| && ms[i].key == key
  }

  /** The install an apply over `before` leaves behind when it changed something. */
  ghost predicate InstalledOver(writer: Writer, before: ConfigFile, install: Install) {
    && PlannedFor(before, install.mutations)
    && ConfigChanged(before, install.mutations)
    && install.backup == Some(before)
    && install.digestAfter == Digest(WriteAll(writer, before, install.mutations))
  }

  lemma {:induction false} WriteAllAt(writer: Writer, f: ConfigFile, ms: seq<Mutation>, key: Key)
    requires forall i, j :: 0 <= i < j < |ms| ==> ms[i].key != ms[j].key
    ensures forall i :: 0 <= i < |ms| && ms[i].key == key ==> Get(WriteAll(writer, f, ms), key) == Some(ms[i].applied)
    ensures !IsManaged(ms, key) ==> Get(WriteAll(writer, f, ms), key) == Get(f, key)
    ensures ms != [] ==> WriteAll(writer, f, ms).Present?
    decreases |ms|
  {
    if ms != [] {
      var next := Set(writer, f, ms[0].key, Some(ms[0].applied));
      WriteAllAt(writer, next, ms[1..], key);
      assert forall i :: 0 < i < |ms| ==> ms[i] == ms[1..][i - 1];
      if IsManaged(ms[1..], key) {
        var i :| 0 <= i < |ms[1..]| && ms[1..][i].key == key;
        assert ms[i + 1].key == key;
      }
    }
  }

  /** Equal digests mean equal texts. */
  lemma DigestTellsTexts(a: ConfigFile, c: ConfigFile)
    ensures Digest(a) == Digest(c) <==> SettingsOf(a) == SettingsOf(c) && LayoutOf(a) == LayoutOf(c)
  {
  }

  /** Equal digests mean equal values. */
  lemma DigestTellsValues(a: ConfigFile, c: ConfigFile, key: Key)
    requires Digest(a) == Digest(c)
    ensures Get(a, key) == Get(c, key)
  {
  }

  // ---------------------------------------------------------------- rolling back over user edits

  function UndoneValue(m: Mutation, user: Option<Value>): Option<Value> {
    if user == Some(m.applied) || user == m.previous then m.previous else user
  }

  predicate IsUserValue(m: Mutation, user: Option<Value>) {
    user != Some(m.applied) && user != m.previous
  }

  /** The keys among the first `n` whose value the user chose. */
  function UserKeys(ms: seq<Mutation>, user: ConfigFile, n: nat): seq<Key>
    requires n <= |ms|
  {
    if n == 0 then []
    else
      var m := ms[n - 1];
      UserKeys(ms, user, n - 1) + if IsUserValue(m, Get(user, m.key)) then [m.key] else []
  }

  /** After `n` mutations: the first `n` are undone, and the others are as the user left them or already undone. */
  ghost predicate Undone(ms: seq<Mutation>, user: ConfigFile, u: Undo, n: nat)
    requires n <= |ms|
  {
    && (forall i :: 0 <= i < n ==> Get(u.file, ms[i].key) == UndoneValue(ms[i], Get(user, ms[i].key)))
    && (forall i :: n <= i < |ms| ==>
          || Get(u.file, ms[i].key) == Get(user, ms[i].key)
          || (Get(user, ms[i].key) == Some(ms[i].applied) && Get(u.file, ms[i].key) == ms[i].previous && u.changed))
    && (forall key :: !IsManaged(ms, key) ==> Get(u.file, key) == Get(user, key))
    && u.preserved == UserKeys(ms, user, n)
    && (u.changed <==> exists i :: 0 <= i < n && Get(user, ms[i].key) == Some(ms[i].applied))
  }

  lemma AppliedValues(writer: Writer, before: ConfigFile, install: Install, f: ConfigFile)
    requires InstalledOver(writer, before, install) && Digest(f) == install.digestAfter
    ensures forall i :: 0 <= i < |install.mutations| ==>
              Get(f, install.mutations[i].key) == Some(install.mutations[i].applied)
    ensures forall key :: !IsManaged(install.mutations, key) ==> Get(f, key) == Get(before, key)
  {
    var after := WriteAll(writer, before, install.mutations);
    forall key
      ensures forall i :: 0 <= i < |install.mutations| && install.mutations[i].key == key ==>
                Get(f, key) == Some(install.mutations[i].applied)
      ensures !IsManaged(install.mutations, key) ==> Get(f, key) == Get(before, key)
    {
      WriteAllAt(writer, before, install.mutations, key);
      DigestTellsValues(f, after, key);
    }
  }

  lemma UndoneByRestore(writer: Writer, before: ConfigFile, install: Install, user: ConfigFile, u: Undo, n: nat)
    requires InstalledOver(writer, before, install) && n < |install.mutations|
    requires Undone(install.mutations, user, u, n) && Digest(u.file) == install.digestAfter
    ensures Undone(install.mutations, user, Undo(before, u.preserved, true), n + 1)
  {
    var ms := install.mutations;
    AppliedValues(writer, before, install, u.file);
    forall i | 0 <= i < |ms|
      ensures Get(before, ms[i].key) == UndoneValue(ms[i], Get(user, ms[i].key))
      ensures !IsUserValue(ms[i], Get(user, ms[i].key))
      ensures Get(before, ms[i].key) == Get(user, ms[i].key) || Get(user, ms[i].key) == Some(ms[i].applied)
    {
      assert Get(u.file, ms[i].key) == Some(ms[i].applied);
    }
  }

  lemma UndoneByValue(writer: Writer, ms: seq<Mutation>, user: ConfigFile, u: Undo, n: nat)
    requires forall i, j :: 0 <= i < j < |ms| ==> ms[i].key != ms[j].key
    requires n < |ms| && Undone(ms, user, u, n)
    ensures var m := ms[n];
            Undone(ms, user,
                   if Get(u.file, m.key) != Some(m.applied) then
                     if Get(u.file, m.key) != m.previous then u.(preserved := u.preserved + [m.key]) else u
                   else Undo(Set(writer, u.file, m.key, m.previous), u.preserved, true), n + 1)
  {
    var m := ms[n];
    if Get(u.file, m.key) == Some(m.applied) {
      SetAt(writer, u.file, m.key, m.previous);
      var r := Undo(Set(writer, u.file, m.key, m.previous), u.preserved, true);
      forall i | 0 <= i < |ms| && i != n ensures Get(r.file, ms[i].key) == Get(u.file, ms[i].key) {
        assert ms[i].key != m.key;
      }
      hide Set;
    }
  }

  lemma SetAt(writer: Writer, f: ConfigFile, key: Key, value: Option<Value>)
    ensures Get(Set(writer, f, key, value), key) == value
    ensures forall other :: other != key ==> Get(Set(writer, f, key, value), other) == Get(f, other)
  {
  }

  lemma UndoneStep(writer: Writer, before: ConfigFile, install: Install, user: ConfigFile, u: Undo, n: nat)
    requires InstalledOver(writer, before, install) && n < |install.mutations| && Undone(install.mutations, user, u, n)
    ensures Undone(install.mutations, user, UndoOne(writer, install, install.mutations[n], u), n + 1)
  {
    if Digest(u.file) == install.digestAfter {
      UndoneByRestore(writer, before, install, user, u, n);
    } else {
      UndoneByValue(writer, install.mutations, user, u, n);
    }
    hide Undone;
    hide Get;
    hide Digest;
    hide Set;
  }

  lemma {:induction false} UndoneUpTo(writer: Writer, before: ConfigFile, install: Install, user: ConfigFile, n: nat)
    requires InstalledOver(writer, before, install) && n <= |install.mutations|
    ensures Undone(install.mutations, user, UndoUpTo(writer, install, Undo(user, [], false), n), n)
  {
    if n > 0 {
      UndoneUpTo(writer, before, install, user, n - 1);
      hide Undone;
      hide UndoOne;
      UndoneStep(writer, before, install, user, UndoUpTo(writer, install, Undo(user, [], false), n - 1), n - 1);
    }
  }

  /**
   Whatever the user made of the file, rollback gives each managed key its old value back if the key
   held the applied or the old value, leaves it alone otherwise and reports exactly those, and never
   changes another key.
   */
  lemma RollbackMeaning(writer: Writer, before: ConfigFile, install: Install, user: ConfigFile)
    requires InstalledOver(writer, before, install)
    ensures var r := Rollback(writer, install, user);
            && (forall i :: 0 <= i < |install.mutations| ==>
                  Get(r.file, install.mutations[i].key)
                  == UndoneValue(install.mutations[i], Get(user, install.mutations[i].key)))
            && (forall key :: !IsManaged(install.mutations, key) ==> Get(r.file, key) == Get(user, key))
            && r.preserved == UserKeys(install.mutations, user, |install.mutations|)
            && (r.changed <==> exists i :: 0 <= i < |install.mutations| &&
                                 Get(user, install.mutations[i].key) == Some(install.mutations[i].applied))
  {
    UndoneUpTo(writer, before, install, user, |install.mutations|);
  }

  lemma {:induction false} UserKeysAre(ms: seq<Mutation>, user: ConfigFile, n: nat, key: Key)
    requires n <= |ms|
    ensures key in UserKeys(ms, user, n)
            <==> exists i :: 0 <= i < n && ms[i].key == key && IsUserValue(ms[i], Get(user, key))
  {
    if n > 0 {
      UserKeysAre(ms, user, n - 1, key);
    }
  }

  // ---------------------------------------------------------------- rolling back an unedited file

  /** A later key whose old value was already the applied one is written again after the backup came back. */
  predicate RewritesAfterRestore(ms: seq<Mutation>) {
    exists i :: 1 <= i < |ms| && ms[i].previous == Some(ms[i].applied)
  }

  lemma BeforeDiffers(writer: Writer, before: ConfigFile, install: Install, f: ConfigFile)
    requires InstalledOver(writer, before, install) && SettingsOf(f) == SettingsOf(before)
    ensures Digest(f) != install.digestAfter
  {
    var ms := install.mutations;
    var i :| 0 <= i < |ms| && Get(before, ms[i].key) != Some(ms[i].applied);
    WriteAllAt(writer, before, ms, ms[i].key);
    assert Get(f, ms[i].key) == Get(before, ms[i].key);
    if Digest(f) == install.digestAfter {
      DigestTellsValues(f, WriteAll(writer, before, ms), ms[i].key);
    }
  }

  /** The old values are back, and each rewrite after the restore made an appending writer's text longer. */
  ghost predicate Restored(writer: Writer, before: ConfigFile, ms: seq<Mutation>, u: Undo, n: nat)
    requires n <= |ms|
  {
    && SettingsOf(u.file) == SettingsOf(before) && u.preserved == [] && u.changed
    && (!RewritesAfterRestore(ms) ==> u.file == before)
    && (writer == APPENDING_WRITER ==>
          |LayoutOf(u.file)| >= |LayoutOf(before)| + if RewritesAfterRestore(ms[..n]) then 1 else 0)
  }

  lemma RestoredStep(writer: Writer, before: ConfigFile, install: Install, u: Undo, n: nat)
    requires InstalledOver(writer, before, install) && 1 < n <= |install.mutations|
    requires Restored(writer, before, install.mutations, u, n - 1)
    ensures Restored(writer, before, install.mutations, UndoOne(writer, install, install.mutations[n - 1], u), n)
  {
    BeforeDiffers(writer, before, install, u.file);
    var ms, m := install.mutations, install.mutations[n - 1];
    assert Get(u.file, m.key) == m.previous;
    if m.previous == Some(m.applied) {
      assert SettingsOf(u.file)[m.key := m.applied] == SettingsOf(u.file);
      hide InstalledOver;
    } else {
      RewritesSooner(ms, n);
      hide RewritesAfterRestore;
    }
  }

  lemma RewritesSooner(ms: seq<Mutation>, n: nat)
    requires 1 < n <= |ms| && ms[n - 1].previous != Some(ms[n - 1].applied)
    ensures RewritesAfterRestore(ms[..n]) ==> RewritesAfterRestore(ms[..n - 1])
  {
    assert forall i :: 0 <= i < n - 1 ==> ms[..n][i] == ms[..n - 1][i];
  }

  lemma {:induction false} UneditedUpTo(writer: Writer, before: ConfigFile, install: Install, user: ConfigFile, n: nat)
    requires InstalledOver(writer, before, install) && Digest(user) == install.digestAfter
    requires 1 <= n <= |install.mutations|
    ensures Restored(writer, before, install.mutations, UndoUpTo(writer, install, Undo(user, [], false), n), n)
  {
    if n > 1 {
      UneditedUpTo(writer, before, install, user, n - 1);
      RestoredStep(writer, before, install, UndoUpTo(writer, install, Undo(user, [], false), n - 1), n);
      hide Restored;
    }
  }

  const APPENDING_WRITER: Writer := (settings: Settings, layout: string) => layout + "x"

  /** On an unedited file the old values come back, and the old text too if nothing is rewritten after the restore. */
  lemma UneditedRollback(writer: Writer, before: ConfigFile, install: Install)
    requires InstalledOver(writer, before, install)
    ensures var r := Rollback(writer, install, WriteAll(writer, before, install.mutations));
            && SettingsOf(r.file) == SettingsOf(before) && r.preserved == [] && r.changed
            && (!RewritesAfterRestore(install.mutations) ==> r.file == before)
  {
    UneditedUpTo(writer, before, install, WriteAll(writer, before, install.mutations), |install.mutations|);
  }

  function InstallOf(writer: Writer, before: ConfigFile, ms: seq<Mutation>): Install {
    Install(ms, Digest(WriteAll(writer, before, ms)), Some(before))
  }

  /**
   The text of an unedited file comes back whatever layout the config command prefers, if and only if
   no key after the first already had its applied value before the install.
   */
  lemma ExactTextIff(before: ConfigFile, ms: seq<Mutation>)
    requires PlannedFor(before, ms) && ConfigChanged(before, ms)
    ensures (forall writer: Writer ::
               Rollback(writer, InstallOf(writer, before, ms), WriteAll(writer, before, ms)).file == before)
            <==> !RewritesAfterRestore(ms)
  {
    forall writer: Writer
      ensures !RewritesAfterRestore(ms) ==>
                Rollback(writer, InstallOf(writer, before, ms), WriteAll(writer, before, ms)).file == before
    {
      UneditedRollback(writer, before, InstallOf(writer, before, ms));
    }
    if RewritesAfterRestore(ms) {
      var writer := APPENDING_WRITER;
      UneditedUpTo(writer, before, InstallOf(writer, before, ms), WriteAll(writer, before, ms), |ms|);
      assert ms[..|ms|] == ms;
      assert Rollback(writer, InstallOf(writer, before, ms), WriteAll(writer, before, ms)).file != before;
    }
  }

  /** A config file that was not there before the install is removed again. */
  lemma AbsentFileIsRemoved(writer: Writer, install: Install)
    requires InstalledOver(writer, Absent, install)
    ensures Rollback(writer, install, WriteAll(writer, Absent, install.mutations)).file == Absent
  {
    UneditedRollback(writer, Absent, install);
  }

  // ---------------------------------------------------------------- planning only adds, and only once

  predicate NoRepeats(strings: seq<string>) {
    forall i, j :: 0 <= i < j < |strings| ==> strings[i] != strings[j]
  }

  lemma {:induction false} DistinctProperties(strings: seq<string>)
    ensures NoRepeats(Distinct(strings)) && (forall x :: x in Distinct(strings) <==> x in strings)
    decreases |strings|
  {
    if strings != [] {
      DistinctProperties(strings[..|strings| - 1]);
      assert strings == strings[..|strings| - 1] + [strings[|strings| - 1]];
    }
  }

  lemma {:induction false} DistinctKeepsPrefix(a: seq<string>, c: seq<string>)
    ensures Distinct(a) <= Distinct(a + c)
    decreases |c|
  {
    if c == [] {
      assert a + c == a;
    } else {
      assert (a + c)[..|a + c| - 1] == a + c[..|c| - 1];
      DistinctKeepsPrefix(a, c[..|c| - 1]);
    }
  }

  lemma {:induction false} DistinctOfDistinct(strings: seq<string>)
    requires NoRepeats(strings)
    ensures Distinct(strings) == strings
    decreases |strings|
  {
    if strings != [] {
      var init := strings[..|strings| - 1];
      DistinctOfDistinct(init);
      assert strings == init + [strings[|strings| - 1]];
    }
  }

  lemma {:induction false} DistinctAbsorbs(a: seq<string>, c: seq<string>)
    requires NoRepeats(a) && forall x :: x in c ==> x in a
    ensures Distinct(a + c) == a
    decreases |c|
  {
    if c == [] {
      assert a + c == a;
      DistinctOfDistinct(a);
    } else {
      assert (a + c)[..|a + c| - 1] == a + c[..|c| - 1];
      DistinctAbsorbs(a, c[..|c| - 1]);
    }
  }

  predicate IsFirstAt(strings: seq<string>, x: string, k: nat) {
    k < |strings| && strings[k] == x && forall h :: 0 <= h < k ==> strings[h] != x
  }

  /** Each string of the list occurs first in `strings` before the next one does. */
  ghost predicate InFirstOrder(firsts: seq<string>, strings: seq<string>) {
    forall i, j, k, h :: 0 <= i < j < |firsts| && IsFirstAt(strings, firsts[i], k) && IsFirstAt(strings, firsts[j], h) ==>
      k < h
  }

  lemma {:induction false} DistinctInFirstOrder(strings: seq<string>)
    ensures InFirstOrder(Distinct(strings), strings)
    decreases |strings|
  {
    if strings != [] {
      var init, firsts := strings[..|strings| - 1], Distinct(strings);
      DistinctInFirstOrder(init);
      DistinctProperties(init);
      forall i, j, k, h | 0 <= i < j < |firsts| && IsFirstAt(strings, firsts[i], k) && IsFirstAt(strings, firsts[j], h)
        ensures k < h
      {
        FirstAtInit(strings, firsts[i], k);
        if j < |Distinct(init)| {
          FirstAtInit(strings, firsts[j], h);
        }
      }
    }
  }

  /** What occurs before the end occurs first before the end. */
  lemma FirstAtInit(strings: seq<string>, x: string, k: nat)
    requires IsFirstAt(strings, x, k) && x in Distinct(strings[..|strings| - 1])
    ensures IsFirstAt(strings[..|strings| - 1], x, k)
  {
    var init := strings[..|strings| - 1];
    DistinctProperties(init);
    var i :| 0 <= i < |init| && init[i] == x;
    assert strings[i] == x;
  }

  lemma {:induction false} NonEmptyTextsOfTexts(strings: seq<string>)
    requires "" !in strings
    ensures NonEmptyTexts(Texts(strings).items) == strings
    decreases |strings|
  {
    if strings != [] {
      assert Texts(strings).items[1..] == Texts(strings[1..]).items;
      NonEmptyTextsOfTexts(strings[1..]);
    }
  }

  lemma {:induction false} NonEmptyTextsAreNonEmpty(items: seq<Value>)
    ensures "" !in NonEmptyTexts(items)
    ensures forall x :: x in NonEmptyTexts(items) <==> x != "" && Text(x) in items
    decreases |items|
  {
    if items != [] {
      NonEmptyTextsAreNonEmpty(items[1..]);
      assert items == [items[0]] + items[1..];
    }
  }

  /** A managed list begins with what the user had, without repeats, then adds what is required, and nothing else. */
  lemma PlanOnlyAdds(f: ConfigFile, key: Key, required: seq<string>)
    ensures var mine := NormalizeStrings(Get(f, key));
            var all := UnionStrings(mine, required);
            && AppliedValue(f, Joined(key, required)) == Texts(all)
            && Distinct(mine) <= all && NoRepeats(all) && InFirstOrder(all, mine + required)
            && (forall x :: x in all <==> x in mine || x in required)
    ensures Get(f, key).Some? && Get(f, key).value.List? ==>
              forall x :: x != "" && Text(x) in Get(f, key).value.items ==>
                x in UnionStrings(NormalizeStrings(Get(f, key)), required)
  {
    var mine := NormalizeStrings(Get(f, key));
    DistinctProperties(mine + required);
    DistinctInFirstOrder(mine + required);
    DistinctKeepsPrefix(mine, required);
    if Get(f, key).Some? && Get(f, key).value.List? {
      NonEmptyTextsAreNonEmpty(Get(f, key).value.items);
    }
  }

  predicate IsKeptEntry(v: Value, required: seq<string>) {
    v.Text? && (v.text != "" || "" in required)
  }

  /**
   A setup keeps every entry the user had under a managed list's key if and only if that value is a list of
   strings, none of them empty unless the empty string is required.
   */
  lemma NothingIsLostIff(f: ConfigFile, key: Key, required: seq<string>)
    requires Get(f, key).Some?
    ensures var applied := AppliedValue(f, Joined(key, required));
            var user := Get(f, key).value;
            (user == applied || (user.List? && forall v :: v in user.items ==> v in applied.items))
            <==> user.List? && forall v :: v in user.items ==> IsKeptEntry(v, required)
  {
    var mine := NormalizeStrings(Get(f, key));
    var all := UnionStrings(mine, required);
    var user := Get(f, key).value;
    DistinctProperties(mine + required);
    if user.List? {
      NonEmptyTextsAreNonEmpty(user.items);
      forall v | v in user.items ensures v in Texts(all).items <==> IsKeptEntry(v, required) {
        InTexts(all, v);
      }
    }
  }

  lemma InTexts(strings: seq<string>, v: Value)
    ensures v in Texts(strings).items <==> v.Text? && v.text in strings
  {
    if v.Text? && v.text in strings {
      var i :| 0 <= i < |strings| && strings[i] == v.text;
      assert Texts(strings).items[i] == v;
    }
  }

  lemma ReplanJoined(f: ConfigFile, again: ConfigFile, key: Key, required: seq<string>)
    requires "" !in required && Get(again, key) == Some(AppliedValue(f, Joined(key, required)))
    ensures AppliedValue(again, Joined(key, required)) == AppliedValue(f, Joined(key, required))
  {
    var mine := NormalizeStrings(Get(f, key));
    var all := UnionStrings(mine, required);
    DistinctProperties(mine + required);
    if Get(f, key).Some? && Get(f, key).value.List? {
      NonEmptyTextsAreNonEmpty(Get(f, key).value.items);
    }
    NonEmptyTextsOfTexts(all);
    DistinctAbsorbs(all, required);
  }

  lemma ReplanChangesNothing(writer: Writer, f: ConfigFile, managed: seq<Managed>)
    requires DistinctKeys(managed) && RequiredNonEmpty(managed)
    ensures var after := WriteAll(writer, f, Plan(f, managed));
            && !ConfigChanged(after, Plan(after, managed))
            && forall i :: 0 <= i < |managed| ==>
                 Plan(after, managed)[i].applied == Plan(f, managed)[i].applied
                 && Plan(after, managed)[i].previous == Some(Plan(f, managed)[i].applied)
  {
    var ms := Plan(f, managed);
    var after := WriteAll(writer, f, ms);
    forall i | 0 <= i < |managed|
      ensures AppliedValue(after, managed[i]) == ms[i].applied && Get(after, managed[i].key) == Some(ms[i].applied)
    {
      WriteAllAt(writer, f, ms, managed[i].key);
      assert ms[i].key == managed[i].key;
      if managed[i].Joined? {
        ReplanJoined(f, after, managed[i].key, managed[i].required);
      }
    }
  }

  /** Setting up again over the file a setup wrote plans the same values, all of them already there. */
  lemma SetupIsIdempotent(writer: Writer, f: ConfigFile, workspaceRoot: string, pluginRoot: string)
    ensures var managed := OpenClawKeys(workspaceRoot, pluginRoot);
            var after := WriteAll(writer, f, Plan(f, managed));
            && !ConfigChanged(after, Plan(after, managed))
            && forall i :: 0 <= i < |managed| ==>
                 Plan(after, managed)[i].applied == Plan(f, managed)[i].applied
                 && Plan(after, managed)[i].previous == Some(Plan(f, managed)[i].applied)
  {
    OpenClawKeysAreSound(workspaceRoot, pluginRoot);
    ReplanChangesNothing(writer, f, OpenClawKeys(workspaceRoot, pluginRoot));
  }

  /** The text need not come back after a setup: the user had already enabled the plugin. */
  lemma TextCanChange() returns (before: ConfigFile, writer: Writer)
    ensures var ms := Plan(before, OpenClawKeys("/work", "/work/plugin"));
            ConfigChanged(before, ms)
            && Rollback(writer, InstallOf(writer, before, ms), WriteAll(writer, before, ms)).file != before
  {
    before := Present(map["plugins.entries.agentgit.enabled" := Flag(true)], "");
    var managed := OpenClawKeys("/work", "/work/plugin");
    var ms := Plan(before, managed);
    OpenClawKeysAreSound("/work", "/work/plugin");
    assert forall i :: 0 <= i < |ms| ==> ms[i].key == managed[i].key;
    assert ms[4].previous == Some(ms[4].applied);
    assert managed[0].key != managed[4].key;
    assert Get(before, ms[0].key) != Some(ms[0].applied);
    ExactTextIff(before, ms);
    writer :| Rollback(writer, InstallOf(writer, before, ms), WriteAll(writer, before, ms)).file != before;
  }

  /** A list of every string that is required or was there and not empty, and nothing else. */
  ghost predicate ListsExactly(value: Option<Value>, before: Option<Value>, required: seq<string>) {
    && value.Some? && value.value.List?
    && forall v :: v in value.value.items <==>
         v.Text? && (v.text in required
                     || (v.text != "" && before.Some? && before.value.List? && v in before.value.items))
  }

  lemma JoinedLists(f: ConfigFile, key: Key, required: seq<string>)
    ensures ListsExactly(Some(AppliedValue(f, Joined(key, required))), Get(f, key), required)
  {
    var mine := NormalizeStrings(Get(f, key));
    DistinctProperties(mine + required);
    if Get(f, key).Some? && Get(f, key).value.List? {
      NonEmptyTextsAreNonEmpty(Get(f, key).value.items);
    }
    forall v ensures v in Texts(UnionStrings(mine, required)).items <==> v.Text? && (v.text in mine || v.text in required) {
      InTexts(UnionStrings(mine, required), v);
    }
  }

  /** What a setup leaves in the config, key by key. */
  lemma SetupMeaning(writer: Writer, f: ConfigFile, workspaceRoot: string, pluginRoot: string, other: Key)
    ensures var after := WriteAll(writer, f, Plan(f, OpenClawKeys(workspaceRoot, pluginRoot)));
            && Get(after, "agents.defaults.workspace") == Some(Text(workspaceRoot))
            && ListsExactly(Get(after, "tools.deny"), Get(f, "tools.deny"),
                            ["exec", "process", "write", "edit", "apply_patch"])
            && ListsExactly(Get(after, "plugins.load.paths"), Get(f, "plugins.load.paths"),
                            if pluginRoot == "" then [] else [pluginRoot])
            && ListsExactly(Get(after, "plugins.allow"), Get(f, "plugins.allow"), ["agentgit"])
            && Get(after, "plugins.entries.agentgit.enabled") == Some(Flag(true))
            && (other != "agents.defaults.workspace" && other != "tools.deny" && other != "plugins.load.paths"
                && other != "plugins.allow" && other != "plugins.entries.agentgit.enabled" ==>
                  Get(after, other) == Get(f, other))
  {
    var managed := OpenClawKeys(workspaceRoot, pluginRoot);
    OpenClawKeysAreSound(workspaceRoot, pluginRoot);
    SetupKey(writer, f, managed, 0);
    SetupKey(writer, f, managed, 1);
    SetupKey(writer, f, managed, 2);
    SetupKey(writer, f, managed, 3);
    SetupKey(writer, f, managed, 4);
    if forall i :: 0 <= i < |managed| ==> managed[i].key != other {
      SetupOther(writer, f, managed, other);
    }
    JoinedLists(f, managed[1].key, managed[1].required);
    JoinedLists(f, managed[2].key, managed[2].required);
    JoinedLists(f, managed[3].key, managed[3].required);
    assert AppliedValue(f, managed[0]) == Text(workspaceRoot) && AppliedValue(f, managed[4]) == Flag(true);
    hide AppliedValue;
    hide WriteAll;
    hide Get;
    hide ListsExactly;
    hide Plan;
  }

  lemma SetupKey(writer: Writer, f: ConfigFile, managed: seq<Managed>, i: nat)
    requires DistinctKeys(managed) && i < |managed|
    ensures Get(WriteAll(writer, f, Plan(f, managed)), managed[i].key) == Some(AppliedValue(f, managed[i]))
  {
    assert Plan(f, managed)[i].key == managed[i].key;
    WriteAllAt(writer, f, Plan(f, managed), managed[i].key);
  }

  lemma SetupOther(writer: Writer, f: ConfigFile, managed: seq<Managed>, key: Key)
    requires DistinctKeys(managed) && forall i :: 0 <= i < |managed| ==> managed[i].key != key
    ensures Get(WriteAll(writer, f, Plan(f, managed)), key) == Get(f, key)
  {
    WriteAllAt(writer, f, Plan(f, managed), key);
  }

  /** So everything said about rolling back holds of every setup that changed the config. */
  lemma SetupInstalls(writer: Writer, f: ConfigFile, workspaceRoot: string, pluginRoot: string)
    ensures var ms := Plan(f, OpenClawKeys(workspaceRoot, pluginRoot));
            PlannedFor(f, ms) && (ConfigChanged(f, ms) ==> InstalledOver(writer, f, InstallOf(writer, f, ms)))
  {
    OpenClawKeysAreSound(workspaceRoot, pluginRoot);
    var managed := OpenClawKeys(workspaceRoot, pluginRoot);
    var ms := Plan(f, managed);
    assert forall i :: 0 <= i < |ms| ==> ms[i].key == managed[i].key;
  }
}

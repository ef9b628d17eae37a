/** The local store of signed check packs: immutable versions, one active version and a stack of
    replaced ones. A digest is represented by the bytes it was computed from, a signature by an
    oracle bit; one pack's files are only ever touched under that pack's identifier. */
module PackStore {
  import opened Results
  import opened Octets

  /** A signed envelope, by what reading and verifying it yields. */
  datatype Artifact = Artifact(packId: string, version: string, signer: string, signatureValid: bool, body: Bytes)

  datatype PackFiles = PackFiles(versions: map<string, Artifact>, active: Option<string>, history: seq<string>)

  type Packs = map<string, PackFiles>

  const NO_FILES := PackFiles(map[], None, [])

  predicate IdStart(c: char) {
    'A' <= c <= 'Z' || 'a' <= c <= 'z' || '0' <= c <= '9'
  }

  predicate SafeId(s: string) {
    s != "" && IdStart(s[0]) && forall c | c in s :: IdStart(c) || c == '.' || c == '_' || c == '-'
  }

  predicate SafeVersion(s: string) {
    s != "" && IdStart(s[0]) && forall c | c in s :: IdStart(c) || c == '.' || c == '_' || c == '-' || c == '+'
  }

  /** `load_signed_check_pack`. */
  predicate Verifies(a: Artifact, trusted: set<string>) {
    a.signer in trusted && a.signatureValid
  }

  function FilesOf(packs: Packs, id: string): PackFiles {
    if id in packs then packs[id] else NO_FILES
  }

  // ---------------------------------------------------------------- transitions of one pack

  /** Stores a version, once and for all, and makes it the active one. */
  function Install(f: PackFiles, a: Artifact): Result<PackFiles> {
    if a.version in f.versions && f.versions[a.version] != a then Rejected
    else
      var stored := f.(versions := f.versions[a.version := a]);
      if f.active == Some(a.version) then Ok(stored)
      else Ok(stored.(active := Some(a.version),
                      history := if f.active.Some? then f.history + [f.active.value] else f.history))
  }

  function Rollback(f: PackFiles): Result<PackFiles> {
    if f.history == [] || f.history[|f.history| - 1] !in f.versions then Rejected
    else Ok(f.(active := Some(f.history[|f.history| - 1]), history := f.history[..|f.history| - 1]))
  }

  predicate RollbackVerifies(f: PackFiles, id: string, trusted: set<string>) {
    && f.history != [] && f.history[|f.history| - 1] in f.versions
    && var a := f.versions[f.history[|f.history| - 1]];
       Verifies(a, trusted) && a.packId == id && a.version == f.history[|f.history| - 1]
  }

  /** Everything activated is stored under its own name, and no replacement was by itself. */
  predicate Sound(f: PackFiles, id: string) {
    && (forall v | v in f.versions :: f.versions[v].packId == id && f.versions[v].version == v)
    && (f.active.None? ==> f.history == [])
    && (f.active.Some? ==> f.active.value in f.versions)
    && (forall h | h in f.history :: h in f.versions)
    && (f.active.Some? ==> NoEqualNeighbours(f.history + [f.active.value]))
  }

  predicate NoEqualNeighbours(s: seq<string>) {
    forall i | 0 < i < |s| :: s[i - 1] != s[i]
  }

  /** No stored version ever changes or disappears. */
  predicate VersionsKept(f: PackFiles, g: PackFiles) {
    forall v | v in f.versions :: v in g.versions && g.versions[v] == f.versions[v]
  }

  lemma InstallKeeps(f: PackFiles, id: string, a: Artifact)
    requires Sound(f, id) && a.packId == id && Install(f, a).Ok?
    ensures Sound(Install(f, a).value, id) && VersionsKept(f, Install(f, a).value)
    ensures Install(f, a).value.active == Some(a.version) && Install(f, a).value.versions[a.version] == a
  {
    var g := Install(f, a).value;
    if f.active.Some? && f.active != Some(a.version) {
      assert g.history + [a.version] == (f.history + [f.active.value]) + [a.version];
    }
  }

  lemma RollbackKeeps(f: PackFiles, id: string)
    requires Sound(f, id) && Rollback(f).Ok?
    ensures Sound(Rollback(f).value, id) && VersionsKept(f, Rollback(f).value)
  {
    var g := Rollback(f).value;
    assert g.history + [g.active.value] == f.history;
    NeighboursPrefix(f.history, f.active.value);
  }

  lemma NeighboursPrefix(s: seq<string>, last: string)
    requires NoEqualNeighbours(s + [last])
    ensures NoEqualNeighbours(s)
  {
    forall i | 0 < i < |s|
      ensures s[i - 1] != s[i]
    {
      assert (s + [last])[i] == s[i] && (s + [last])[i - 1] == s[i - 1];
    }
  }

  /** What a sound store can roll back is never missing. */
  lemma RollbackFindsVersion(f: PackFiles, id: string)
    requires Sound(f, id)
    ensures Rollback(f).Ok? <==> f.history != []
  {
  }

  /** A changing install is undone by the next rollback if and only if it replaced something:
      the first activation of a pack cannot be taken back. */
  lemma RollbackUndoesInstall(f: PackFiles, id: string, a: Artifact)
    requires Sound(f, id) && Install(f, a).Ok? && f.active != Some(a.version)
    ensures var g := Install(f, a).value;
      (Rollback(g).Ok? && Rollback(g).value.active == f.active && Rollback(g).value.history == f.history)
          <==> f.active.Some?
  {
    var g := Install(f, a).value;
    if f.active.Some? {
      assert g.history[..|g.history| - 1] == f.history;
    }
  }

  // -------------------------------------------------------------- runs of one pack's store

  datatype Move = InstallMove(artifact: Artifact) | RollbackMove | RollbackVerifiedMove(trusted: set<string>)

  function Play(f: PackFiles, id: string, m: Move): PackFiles {
    match m
    case InstallMove(a) => if a.packId == id && Install(f, a).Ok? then Install(f, a).value else f
    case RollbackMove => if Rollback(f).Ok? then Rollback(f).value else f
    case RollbackVerifiedMove(trusted) => if RollbackVerifies(f, id, trusted) then Rollback(f).value else f
  }

  function PlayAll(f: PackFiles, id: string, ms: seq<Move>): PackFiles
    decreases |ms|
  {
    if ms == [] then f else PlayAll(Play(f, id, ms[0]), id, ms[1..])
  }

  lemma PlayKeeps(f: PackFiles, id: string, m: Move)
    requires Sound(f, id)
    ensures Sound(Play(f, id, m), id) && VersionsKept(f, Play(f, id, m))
  {
    match m
    case InstallMove(a) =>
      if a.packId == id && Install(f, a).Ok? {
        InstallKeeps(f, id, a);
      }
    case RollbackMove =>
      if Rollback(f).Ok? {
        RollbackKeeps(f, id);
      }
    case RollbackVerifiedMove(trusted) =>
      if RollbackVerifies(f, id, trusted) {
        RollbackKeeps(f, id);
      }
  }

  /** Over every run of installs and rollbacks, stored bytes never change, everything active or
      on the stack is stored, and no version sits on top of itself. */
  lemma {:induction false} StoreStaysSound(f: PackFiles, id: string, ms: seq<Move>)
    requires Sound(f, id)
    ensures Sound(PlayAll(f, id, ms), id) && VersionsKept(f, PlayAll(f, id, ms))
    decreases |ms|
  {
    if ms != [] {
      PlayKeeps(f, id, ms[0]);
      StoreStaysSound(Play(f, id, ms[0]), id, ms[1..]);
    }
  }

  /** A balanced sequence: each install is matched by the rollback that follows its inner part. */
  datatype Script = Done | Nested(artifact: Artifact, inner: Script, rest: Script)

  predicate Changing(f: PackFiles, id: string, a: Artifact) {
    a.packId == id && Install(f, a).Ok? && f.active != Some(a.version)
  }

  function RunScript(f: PackFiles, id: string, s: Script): Result<PackFiles>
    decreases s
  {
    match s
    case Done => Ok(f)
    case Nested(a, inner, rest) =>
      if !Changing(f, id, a) then Rejected
      else
        var inside := RunScript(Install(f, a).value, id, inner);
        if inside.Rejected? || Rollback(inside.value).Rejected? then Rejected
        else RunScript(Rollback(inside.value).value, id, rest)
  }

  /** Only an install can stop a balanced sequence, never one of its rollbacks. */
  predicate InstallsAccepted(f: PackFiles, id: string, s: Script)
    decreases s
  {
    match s
    case Done => true
    case Nested(a, inner, rest) =>
      && Changing(f, id, a)
      && InstallsAccepted(Install(f, a).value, id, inner)
      && var inside := RunScript(Install(f, a).value, id, inner);
         (inside.Ok? && Rollback(inside.value).Ok? ==> InstallsAccepted(Rollback(inside.value).value, id, rest))
  }

  /** From any store with an active version, a balanced sequence of changing installs and
      rollbacks restores the active version and the stack exactly. */
  lemma {:induction false} BalancedRestores(f: PackFiles, id: string, s: Script)
    requires Sound(f, id) && f.active.Some?
    ensures RunScript(f, id, s).Ok? <==> InstallsAccepted(f, id, s)
    ensures RunScript(f, id, s).Ok? ==> var g := RunScript(f, id, s).value;
      g.active == f.active && g.history == f.history && VersionsKept(f, g) && Sound(g, id)
    decreases s
  {
    if s.Nested? && Changing(f, id, s.artifact) {
      var pushed := Install(f, s.artifact).value;
      InstallKeeps(f, id, s.artifact);
      BalancedRestores(pushed, id, s.inner);
      var inside := RunScript(pushed, id, s.inner);
      if inside.Ok? {
        RollbackFindsVersion(inside.value, id);
        RollbackKeeps(inside.value, id);
        assert pushed.history == f.history + [f.active.value];
        assert pushed.history[..|pushed.history| - 1] == f.history;
        BalancedRestores(Rollback(inside.value).value, id, s.rest);
      }
    }
  }

  /** Without one, no balanced sequence gets past its first pair: there is nothing to roll back
      the first installation to. */
  lemma BalancedNeedsActive(f: PackFiles, id: string, s: Script)
    requires Sound(f, id) && f.active.None?
    ensures RunScript(f, id, s).Ok? <==> s.Done?
  {
    if s.Nested? && Changing(f, id, s.artifact) {
      InstallKeeps(f, id, s.artifact);
      BalancedRestores(Install(f, s.artifact).value, id, s.inner);
    }
  }

  // ------------------------------------------------------------------------ the store

  class CheckPackStore {
    var packs: Packs

    constructor ()
      ensures packs == map[] && Valid()
    {
      packs := map[];
    }

    ghost predicate Valid()
      reads this
    {
      forall id | id in packs :: Sound(packs[id], id)
    }

    method InstallSigned(a: Artifact, trusted: set<string>) returns (ok: bool)
      modifies this
      ensures old(Valid()) ==> Valid()
      ensures ok <==>
        && Verifies(a, trusted) && SafeId(a.packId) && SafeVersion(a.version)
        && Install(FilesOf(old(packs), a.packId), a).Ok?
      ensures packs == if ok then old(packs)[a.packId := Install(FilesOf(old(packs), a.packId), a).value]
        else old(packs)
    {
      if !Verifies(a, trusted) || !SafeId(a.packId) || !SafeVersion(a.version) {
        return false;
      }
      var files := FilesOf(packs, a.packId);
      if a.version in files.versions {
        if files.versions[a.version] != a {
          return false;
        }
      } else {
        files := files.(versions := files.versions[a.version := a]);
      }
      var history := files.history;
      if files.active.Some? && files.active.value != a.version {
        history := history + [files.active.value];
      }
      if files.active != Some(a.version) {
        files := files.(active := Some(a.version), history := history);
      }
      ghost var before := FilesOf(packs, a.packId);
      assert files.versions == before.versions[a.version := a];
      if Valid() {
        InstallKeeps(before, a.packId, a);
      }
      packs := packs[a.packId := files];
      return true;
    }

    method RollbackVerified(id: string, trusted: set<string>) returns (r: Result<string>)
      modifies this
      ensures old(Valid()) ==> Valid()
      ensures r.Ok? <==> SafeId(id) && RollbackVerifies(FilesOf(old(packs), id), id, trusted)
      ensures packs == if r.Ok? then old(packs)[id := Rollback(FilesOf(old(packs), id)).value] else old(packs)
      ensures r.Ok? ==> id in packs && packs[id].active == Some(r.value)
    {
      var files := FilesOf(packs, id);
      if !SafeId(id) || files.history == [] {
        return Rejected;
      }
      var previous := files.history[|files.history| - 1];
      if previous !in files.versions {
        return Rejected;
      }
      var a := files.versions[previous];
      if !Verifies(a, trusted) || a.packId != id || a.version != previous {
        return Rejected;
      }
      if Valid() {
        RollbackKeeps(files, id);
      }
      packs := packs[id := files.(active := Some(previous), history := files.history[..|files.history| - 1])];
      return Ok(previous);
    }

    method RollbackLatest(id: string) returns (r: Result<string>)
      modifies this
      ensures old(Valid()) ==> Valid()
      ensures r.Ok? <==> SafeId(id) && Rollback(FilesOf(old(packs), id)).Ok?
      ensures packs == if r.Ok? then old(packs)[id := Rollback(FilesOf(old(packs), id)).value] else old(packs)
      ensures r.Ok? ==> id in packs && packs[id].active == Some(r.value)
    {
      var files := FilesOf(packs, id);
      if !SafeId(id) || files.history == [] {
        return Rejected;
      }
      var previous := files.history[|files.history| - 1];
      if previous !in files.versions {
        return Rejected;
      }
      if Valid() {
        RollbackKeeps(files, id);
      }
      packs := packs[id := files.(active := Some(previous), history := files.history[..|files.history| - 1])];
      return Ok(previous);
    }
  }
}

/** Publishing one object in the local store (`internal/storage/local.go`).

    Bytes and metadata are two files, written one after the other.  Writers (`Put` and
    `CompleteMultipart`) of the same key run side by side and may crash between any two file
    operations. */
module LocalStore {
  import opened Prelude

  type Bytes = seq<int>

  /** Size and checksum, as a request declares them and as a metadata file records them. */
  datatype Info = Info(size: int, sha256: int)

  /** The two files of a key: the object under its path, and its metadata. */
  datatype Files = Files(target: Option<Bytes>, metadata: Option<Info>)

  datatype StoreError = Conflict | SizeMismatch | ChecksumMismatch | Fault

  datatype Writer =
    | Checking(declared: Info, body: Bytes)
    | Publishing(body: Bytes)
    | Describing(body: Bytes)
    | Ended(result: Result<Info, StoreError>)

  /** `Delete` removes the object first and its metadata second. */
  datatype Deleter = RemovingObject | RemovingMetadata | Removed

  datatype World = World(files: Files, writers: map<nat, Writer>, deleters: map<nat, Deleter>)

  type Hash = Bytes -> int

  function Describe(hash: Hash, body: Bytes): Info { Info(|body|, hash(body)) }

  /** An object counts only together with metadata of the same size. */
  function Stat(files: Files): Option<Info> {
    if files.target.Some? && files.metadata.Some? && files.metadata.value.size == |files.target.value| then files.metadata else None
  }

  // ---- One file operation of a writer -------------------------------------------------

  /** The temporary file is invisible, so verifying the body is part of the first step.  The
      reader is cut off one byte after the declared size. */
  function Verify(hash: Hash, declared: Info, body: Bytes): Writer {
    if |body| != declared.size then Ended(Err(SizeMismatch))
    else if hash(body) != declared.sha256 then Ended(Err(ChecksumMismatch))
    else Publishing(body)
  }

  /** `described` tells whether writing the metadata file succeeds. */
  function WriterStep(hash: Hash, files: Files, writer: Writer, described: bool): (Files, Writer) {
    match writer
    case Checking(declared, body) =>
      (match Stat(files)
       case Some(info) => (files, Ended(if info == declared then Ok(info) else Err(Conflict)))
       case None => (files, Verify(hash, declared, body)))
    case Publishing(body) =>
      if files.target.None? then (files.(target := Some(body)), Describing(body))
      else (files, Ended(if Stat(files) == Some(Describe(hash, body)) then Ok(Describe(hash, body)) else Err(Conflict)))
    case Describing(body) =>
      if described then (files.(metadata := Some(Describe(hash, body))), Ended(Ok(Describe(hash, body))))
      else (files.(target := None), Ended(Err(Fault)))
    case Ended(_) => (files, writer)
  }

  function DeleterStep(files: Files, deleter: Deleter): (Files, Deleter) {
    match deleter
    case RemovingObject => (files.(target := None), RemovingMetadata)
    case RemovingMetadata => (files.(metadata := None), Removed)
    case Removed => (files, Removed)
  }

  /** The files of one key; `Put` runs its operations in order. */
  class Directory {
    const hash: Hash
    var files: Files

    constructor (hash: Hash)
      ensures this.hash == hash && files == Files(None, None)
    {
      this.hash, files := hash, Files(None, None);
    }

    /** `publishExclusive`: a hard link never replaces an existing file. */
    method PublishExclusive(body: Bytes) returns (ok: bool)
      modifies this
      ensures ok == old(files).target.None?
      ensures files == if ok then old(files).(target := Some(body)) else old(files)
    {
      if files.target.Some? {
        return false;
      }
      files := files.(target := Some(body));
      return true;
    }

    /** The store's retry contract, as far as it holds: with nobody in between, storing
        verified bytes succeeds exactly when the object is absent or is described already with
        the same size and checksum. */
    method Put(declared: Info, body: Bytes, described: bool) returns (result: Result<Info, StoreError>)
      modifies this
      ensures (files, Ended(result)) == PutAlone(hash, old(files), declared, body, described)
      ensures
        var was, there := old(files),
          old(files).target.Some? && old(files).metadata.Some? && old(files).metadata.value.size == |old(files).target.value|;
        && (there ==> files == was && result == if was.metadata == Some(declared) then Ok(declared) else Err(Conflict))
        && (!there && |body| != declared.size ==> files == was && result == Err(SizeMismatch))
        && (!there && |body| == declared.size && hash(body) != declared.sha256 ==> files == was && result == Err(ChecksumMismatch))
        && (!there && |body| == declared.size && hash(body) == declared.sha256 ==>
              if was.target.Some? then files == was && result == Err(Conflict)
              else if described then files == Files(Some(body), Some(declared)) && result == Ok(declared)
              else files == was && result == Err(Fault))
    {
      var existing := Stat(files);
      if existing.Some? {
        if existing.value.size == declared.size && existing.value.sha256 == declared.sha256 {
          return Ok(existing.value);
        }
        return Err(Conflict);
      }
      if |body| != declared.size {
        return Err(SizeMismatch);
      }
      if hash(body) != declared.sha256 {
        return Err(ChecksumMismatch);
      }
      var published := PublishExclusive(body);
      if !published {
        return if Stat(files) == Some(Info(|body|, hash(body))) then Ok(Info(|body|, hash(body))) else Err(Conflict);
      }
      if !described {
        files := files.(target := None);
        return Err(Fault);
      }
      files := files.(metadata := Some(Info(|body|, hash(body))));
      return Ok(Info(|body|, hash(body)));
    }
  }

  /** A whole Put with nobody in between: at most three file operations. */
  function PutAlone(hash: Hash, files: Files, declared: Info, body: Bytes, described: bool): (Files, Writer) {
    var checked := WriterStep(hash, files, Checking(declared, body), described);
    var published := WriterStep(hash, checked.0, checked.1, described);
    WriterStep(hash, published.0, published.1, described)
  }

  /** When a fault-free Put of bytes that match their declaration succeeds. */
  lemma PutSucceedsIff(hash: Hash, files: Files, body: Bytes)
    ensures
      var declared := Describe(hash, body);
      var (after, writer) := PutAlone(hash, files, declared, body, true);
      && writer == Ended(if files.target.None? || Stat(files) == Some(declared) then Ok(declared) else Err(Conflict))
      && (writer == Ended(Ok(declared)) ==> Stat(after) == Some(declared))
      && (writer == Ended(Err(Conflict)) ==> after == files)
  {
  }

  /** A crash between publishing the bytes and describing them makes every later Put of the
      very same bytes a conflict: the retry contract fails exactly where the object exists
      without metadata that matches it. */
  lemma CrashBreaksRetry(hash: Hash, body: Bytes)
    ensures
      var crashed := Files(Some(body), None);
      && WriterStep(hash, Files(None, None), Publishing(body), true).0 == crashed
      && PutAlone(hash, crashed, Describe(hash, body), body, true) == (crashed, Ended(Err(Conflict)))
  {
    PutSucceedsIff(hash, Files(Some(body), None), body);
  }

  // ---- All interleavings --------------------------------------------------------------

  /** A completer is CompleteMultipart behind its copy loop: it checks the assembled bytes and
      publishes them as Put does, without looking for an earlier object first. */
  datatype Action =
    | NewWriter(id: nat, declared: Info, body: Bytes)
    | NewCompleter(id: nat, declared: Info, body: Bytes)
    | Write(id: nat, described: bool)
    | Crash(id: nat)
    | NewDeleter(id: nat)
    | Delete(id: nat)

  const EMPTY := World(Files(None, None), map[], map[])

  function Step(hash: Hash, w: World, a: Action): World {
    match a
    case NewWriter(id, declared, body) => if id in w.writers then w else w.(writers := w.writers[id := Checking(declared, body)])
    case NewCompleter(id, declared, body) => if id in w.writers then w else w.(writers := w.writers[id := Verify(hash, declared, body)])
    case Write(id, described) =>
      if id !in w.writers then w
      else
        var (files, next) := WriterStep(hash, w.files, w.writers[id], described);
        w.(files := files, writers := w.writers[id := next])
    case Crash(id) => w.(writers := w.writers - {id}, deleters := w.deleters - {id})
    case NewDeleter(id) => if id in w.deleters then w else w.(deleters := w.deleters[id := RemovingObject])
    case Delete(id) =>
      if id !in w.deleters then w
      else
        var (files, next) := DeleterStep(w.files, w.deleters[id]);
        w.(files := files, deleters := w.deleters[id := next])
  }

  function Run(hash: Hash, w: World, actions: seq<Action>): World
    decreases |actions|
  {
    if actions == [] then w else Run(hash, Step(hash, w, actions[0]), actions[1..])
  }

  predicate NeverDeletes(actions: seq<Action>) { forall i :: 0 <= i < |actions| ==> !actions[i].NewDeleter? && !actions[i].Delete? }

  /** Stat is truthful: what it reports is the size and checksum of the bytes that are there. */
  predicate Truthful(hash: Hash, files: Files) { Stat(files).Some? ==> Stat(files) == Some(Describe(hash, files.target.value)) }

  /** Without Delete: metadata describes the object it belongs to, and only the writer that
      published an undescribed object can still describe or withdraw it. */
  ghost predicate Undeleted(hash: Hash, w: World) {
    && (w.files.metadata.Some? ==> w.files.target.Some? && w.files.metadata.value == Describe(hash, w.files.target.value))
    && (forall i :: i in w.writers && w.writers[i].Describing? ==> w.files == Files(Some(w.writers[i].body), None))
    && (forall i, j :: i in w.writers && j in w.writers && w.writers[i].Describing? && w.writers[j].Describing? ==> i == j)
  }

  lemma WriteKeeps(hash: Hash, w: World, a: Action)
    requires Undeleted(hash, w) && !a.NewDeleter? && !a.Delete?
    ensures Undeleted(hash, Step(hash, w, a))
    ensures Stat(w.files).Some? ==> Step(hash, w, a).files == w.files
  {
  }

  /** At every point of every interleaving of writers, crashes included, Stat reports nothing or
      the true size and checksum; once it reports an object, that object's bytes never change. */
  lemma {:induction false} StatIsTruthful(hash: Hash, w: World, actions: seq<Action>)
    requires Undeleted(hash, w) && NeverDeletes(actions)
    ensures Truthful(hash, Run(hash, w, actions).files)
    ensures Stat(w.files).Some? ==> Run(hash, w, actions).files == w.files
    decreases |actions|
  {
    if actions != [] {
      WriteKeeps(hash, w, actions[0]);
      StatIsTruthful(hash, Step(hash, w, actions[0]), actions[1..]);
    }
  }

  /** In particular from the empty store on. */
  lemma StatIsTruthfulFromEmpty(hash: Hash, actions: seq<Action>)
    requires NeverDeletes(actions)
    ensures Truthful(hash, Run(hash, EMPTY, actions).files)
  {
    StatIsTruthful(hash, EMPTY, actions);
  }

  // ---- With Delete --------------------------------------------------------------------

  /** The two file operations that can make Stat lie, by what a writer finds when it takes them:
      it publishes bytes beside the metadata of other bytes of the same size, which a Delete has
      not removed yet; or it describes its own bytes beside other bytes of the same size, which
      were published after a Delete removed its own. */
  predicate Misleads(hash: Hash, w: World, a: Action) {
    && a.Write? && a.id in w.writers
    && match w.writers[a.id]
       case Publishing(body) =>
         && w.files.target.None? && w.files.metadata.Some?
         && w.files.metadata.value.size == |body| && w.files.metadata.value != Describe(hash, body)
       case Describing(body) =>
         && a.described && w.files.target.Some?
         && |w.files.target.value| == |body| && Describe(hash, w.files.target.value) != Describe(hash, body)
       case _ => false
  }

  lemma MisleadingStep(hash: Hash, w: World, a: Action)
    requires Truthful(hash, w.files)
    ensures Truthful(hash, Step(hash, w, a).files) <==> !Misleads(hash, w, a)
  {
  }

  predicate AlwaysTruthful(hash: Hash, w: World, actions: seq<Action>)
    decreases |actions|
  {
    Truthful(hash, w.files) && (actions != [] ==> AlwaysTruthful(hash, Step(hash, w, actions[0]), actions[1..]))
  }

  predicate NeverMisleads(hash: Hash, w: World, actions: seq<Action>)
    decreases |actions|
  {
    actions != [] ==> !Misleads(hash, w, actions[0]) && NeverMisleads(hash, Step(hash, w, actions[0]), actions[1..])
  }

  /** Whatever writers, crashes and Deletes interleave: Stat is truthful in every state of a run
      if and only if no writer in it takes one of the two misleading operations. */
  lemma {:induction false} TruthfulIff(hash: Hash, w: World, actions: seq<Action>)
    requires Truthful(hash, w.files)
    ensures AlwaysTruthful(hash, w, actions) <==> NeverMisleads(hash, w, actions)
    decreases |actions|
  {
    if actions != [] {
      MisleadingStep(hash, w, actions[0]);
      if !Misleads(hash, w, actions[0]) { TruthfulIff(hash, Step(hash, w, actions[0]), actions[1..]); }
    }
  }

  /** Every writer of the key declares the same object, as the upload service's writers do. */
  predicate Agreed(actions: seq<Action>, declared: Info) {
    forall i :: 0 <= i < |actions| && (actions[i].NewWriter? || actions[i].NewCompleter?) ==> actions[i].declared == declared
  }

  predicate WriterAgrees(hash: Hash, writer: Writer, declared: Info) {
    match writer
    case Checking(d, _) => d == declared
    case Publishing(body) => Describe(hash, body) == declared
    case Describing(body) => Describe(hash, body) == declared
    case Ended(_) => true
  }

  ghost predicate AllAgree(hash: Hash, w: World, declared: Info) {
    && (w.files.target.Some? ==> Describe(hash, w.files.target.value) == declared)
    && (w.files.metadata.Some? ==> w.files.metadata.value == declared)
    && (forall i :: i in w.writers ==> WriterAgrees(hash, w.writers[i], declared))
  }

  /** When the writers of a key agree on what they store, Stat stays truthful even while
      Deletes run in between. */
  lemma {:induction false} StatIsTruthfulUnderDelete(hash: Hash, w: World, declared: Info, actions: seq<Action>)
    requires AllAgree(hash, w, declared) && Agreed(actions, declared)
    ensures Truthful(hash, Run(hash, w, actions).files)
    decreases |actions|
  {
    if actions != [] {
      var w' := Step(hash, w, actions[0]);
      forall i | i in w'.writers ensures WriterAgrees(hash, w'.writers[i], declared) {
        assert i in w.writers ==> WriterAgrees(hash, w.writers[i], declared);
      }
      if actions[0].Write? && actions[0].id in w.writers { assert WriterAgrees(hash, w.writers[actions[0].id], declared); }
      forall i | 0 <= i < |actions[1..]| ensures actions[1..][i] == actions[i + 1] {}
      StatIsTruthfulUnderDelete(hash, w', declared, actions[1..]);
    }
  }

  /** The first of them happens: a writer of other bytes of the same size publishes between the
      two removals of a Delete, and is reported under the old checksum. */
  lemma DeleteCanMislead(hash: Hash, first: Bytes, second: Bytes)
    requires |first| == |second| && hash(first) != hash(second)
    ensures
      var w := Run(hash, EMPTY, StoreDeleteStore(hash, first, second));
      Stat(w.files) == Some(Describe(hash, first)) && w.files.target == Some(second) && !Truthful(hash, w.files)
  {
    var w4 := Run(hash, EMPTY, Stored(hash, first));
    FirstStore(hash, first);
    DeletedThenStored(hash, w4, first, second);
    RunAppend(hash, EMPTY, Stored(hash, first), DeleteStore(hash, second));
  }

  /** The first writer stores its bytes and describes them. */
  function Stored(hash: Hash, first: Bytes): seq<Action> {
    [NewWriter(0, Describe(hash, first), first), Write(0, true), Write(0, true), Write(0, true)]
  }

  /** A deleter has removed the bytes when the second writer publishes. */
  function DeleteStore(hash: Hash, second: Bytes): seq<Action> {
    [NewDeleter(1), Delete(1), NewWriter(2, Describe(hash, second), second), Write(2, true), Write(2, true)]
  }

  lemma FirstStore(hash: Hash, first: Bytes)
    ensures
      var w := Run(hash, EMPTY, Stored(hash, first));
      w.files == Files(Some(first), Some(Describe(hash, first))) && w.writers.Keys == {0} && w.deleters == map[]
  {
    var create := NewWriter(0, Describe(hash, first), first);
    assert Stored(hash, first) == [create] + [Write(0, true), Write(0, true), Write(0, true)];
    RunCons(hash, EMPTY, create, [Write(0, true), Write(0, true), Write(0, true)]);
    RunThree(hash, Step(hash, EMPTY, create), Write(0, true), Write(0, true), Write(0, true), []);
    assert [Write(0, true), Write(0, true), Write(0, true)] == [Write(0, true), Write(0, true), Write(0, true)] + [];
  }

  lemma DeletedThenStored(hash: Hash, w: World, first: Bytes, second: Bytes)
    requires |first| == |second| && w.files == Files(Some(first), Some(Describe(hash, first))) && w.writers.Keys == {0} && w.deleters == map[]
    ensures Run(hash, w, DeleteStore(hash, second)).files == Files(Some(second), Some(Describe(hash, first)))
  {
    var create := NewWriter(2, Describe(hash, second), second);
    var w1 := Step(hash, w, NewDeleter(1));
    var w2 := Step(hash, w1, Delete(1));
    assert w2.files == Files(None, Some(Describe(hash, first)));
    var w3 := Step(hash, w2, create);
    var w4 := Step(hash, w3, Write(2, true));
    assert w4.writers[2] == Publishing(second);
    assert DeleteStore(hash, second) == [NewDeleter(1), Delete(1), create] + [Write(2, true), Write(2, true)];
    RunThree(hash, w, NewDeleter(1), Delete(1), create, [Write(2, true), Write(2, true)]);
    assert [Write(2, true), Write(2, true)] == [Write(2, true)] + [Write(2, true)] && [Write(2, true)] == [Write(2, true)] + [];
    RunCons(hash, w3, Write(2, true), [Write(2, true)]);
    RunCons(hash, w4, Write(2, true), []);
  }

  lemma {:induction false} RunAppend(hash: Hash, w: World, a: seq<Action>, b: seq<Action>)
    ensures Run(hash, w, a + b) == Run(hash, Run(hash, w, a), b)
    decreases |a|
  {
    if a == [] {
      assert a + b == b;
    } else {
      assert a + b == [a[0]] + (a[1..] + b);
      RunCons(hash, w, a[0], a[1..] + b);
      RunAppend(hash, Step(hash, w, a[0]), a[1..], b);
    }
  }

  function StoreDeleteStore(hash: Hash, first: Bytes, second: Bytes): seq<Action> {
    Stored(hash, first) + DeleteStore(hash, second)
  }

  lemma RunCons(hash: Hash, w: World, a: Action, rest: seq<Action>)
    ensures Run(hash, w, [a] + rest) == Run(hash, Step(hash, w, a), rest)
  {
    assert ([a] + rest)[1..] == rest;
  }

  lemma RunThree(hash: Hash, w: World, a: Action, b: Action, c: Action, rest: seq<Action>)
    ensures Run(hash, w, [a, b, c] + rest) == Run(hash, Step(hash, Step(hash, Step(hash, w, a), b), c), rest)
  {
    assert [a, b, c] + rest == [a] + ([b] + ([c] + rest));
    RunCons(hash, w, a, [b] + ([c] + rest));
    RunCons(hash, Step(hash, w, a), b, [c] + rest);
    RunCons(hash, Step(hash, Step(hash, w, a), b), c, rest);
  }
}

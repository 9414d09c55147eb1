/** Completing and aborting one multipart upload (`internal/media/service.go`, `repository.go`,
    `internal/storage/local.go` and `s3.go`).

    Any number of CompleteUpload, AbortUpload and AbortExpiredUpload calls and the asset
    cleanup run side by side and may crash anywhere; every database statement, every file
    operation of the local store and every request to the remote one is one step. */
module Uploads {
  import opened Prelude

  datatype UploadState = Pending | Uploading | Completing | Aborting | Completed | Aborted | Expired | FailedUpload

  datatype AssetState = AssetPending | AssetUploading | Uploaded | Verifying | AssetReady | AssetFailed | Deleting | Deleted

  datatype Object = Object(size: int, sha256: int)

  datatype Store = Local | Remote

  /** The upload row, its asset row, what the store holds under the asset's key (the object and
      its description, in the local store two files), and whether the parts are still there. */
  datatype Shared = Shared(
    now: int, state: UploadState, updatedAt: int, expiresAt: int,
    asset: AssetState, verified: Option<Object>, file: Option<Object>, described: Option<Object>, multipart: bool)

  /** The chance in one step: a failure, whether an operation that failed or is not checked took
      effect all the same, and what the parts assemble to. */
  datatype Luck = Luck(fault: bool, effect: bool, assembled: Object)

  datatype CompletePhase =
    | CompleteStart
    | Claiming
    | Storing
    | Publishing
    | Describing
    | Clearing
    | Checking(accepted: bool)
    | Marking(info: Object)
    | Rereading
    | Compensating
    | RemovingMetadata
    | CompleteDone(ok: bool)

  datatype AbortPhase =
    | AbortStart(stale: Option<int>)
    | ClaimingAbort(stale: Option<int>)
    | AbortingStore
    | MarkingAbort
    | AbortDone(ok: bool)

  /** Asset states a completion may still turn into "ready". */
  predicate Live(asset: AssetState) { asset in {AssetPending, AssetUploading, Uploaded, Verifying, AssetReady} }

  predicate InAbort(state: UploadState) { state in {Aborting, Aborted, Expired} }

  /** `Stat`: an object counts only together with a description of the same size. */
  function Reported(s: Shared): Option<Object> {
    if s.file.Some? && s.described.Some? && s.file.value.size == s.described.value.size then s.described else None
  }

  // ---- The guarded updates ------------------------------------------------------------

  function ClaimedCompleting(s: Shared): (Shared, bool) {
    if s.state in {Pending, Uploading} then (s.(state := Completing, updatedAt := s.now), true) else (s, false)
  }

  function ClaimedAborting(s: Shared, stale: Option<int>): (Shared, bool) {
    if s.state in {Pending, Uploading, FailedUpload} || (stale.Some? && s.state == Completing && s.updatedAt <= stale.value)
    then (s.(state := Aborting, updatedAt := s.now), true) else (s, false)
  }

  function MarkedCompleted(s: Shared, info: Object): (Shared, bool) {
    if s.state in {Completing, Completed} && Live(s.asset)
    then (s.(state := Completed, updatedAt := s.now, asset := AssetReady, verified := Some(info)), true) else (s, false)
  }

  function MarkedAborted(s: Shared): (Shared, bool) {
    if s.state in {Aborting, Aborted}
    then (s.(state := Aborted, updatedAt := s.now, asset := if s.asset == AssetReady then s.asset else AssetFailed), true) else (s, false)
  }

  // ---- The store ----------------------------------------------------------------------

  /** Reading the parts.  The local store assembles them in a temporary file and goes on without
      them; the remote one publishes in the same request, and may have done so although the
      request failed. */
  function Assembled(s: Shared, declared: Object, store: Store, luck: Luck): (Shared, CompletePhase) {
    match store
    case Local =>
      if luck.fault then (s, CompleteDone(false))
      else if !s.multipart then (s, if Reported(s) == Some(declared) then Marking(declared) else CompleteDone(false))
      else (s, if luck.assembled == declared then Publishing else CompleteDone(false))
    case Remote =>
      var accepted := s.multipart && !luck.fault;
      (if accepted || (s.multipart && luck.effect)
       then s.(file := Some(luck.assembled), described := Some(luck.assembled), multipart := false) else s, Checking(accepted))
  }

  /** An object is never replaced; one that is described already is accepted if it is the
      declared one. */
  function Published(s: Shared, declared: Object, luck: Luck): (Shared, CompletePhase) {
    if luck.fault then (s, CompleteDone(false))
    else if s.file.None? then (s.(file := Some(declared)), Describing)
    else if Reported(s) == Some(declared) then (s.(multipart := s.multipart && !luck.effect), Marking(declared))
    else (s, CompleteDone(false))
  }

  /** The remote store takes a wrong object back that it had accepted. */
  function Checked(s: Shared, declared: Object, accepted: bool, luck: Luck): (Shared, CompletePhase) {
    if luck.fault then (s, CompleteDone(false))
    else if Reported(s) == Some(declared) then (s, Marking(declared))
    else (if accepted then s.(file := None, described := None) else s, CompleteDone(false))
  }

  function StoreStep(s: Shared, phase: CompletePhase, declared: Object, store: Store, luck: Luck): (Shared, CompletePhase)
    requires InStore(phase)
  {
    match phase
    case Storing => Assembled(s, declared, store, luck)
    case Publishing => Published(s, declared, luck)
    case Describing =>
      if luck.fault then (if luck.effect then s.(file := None) else s, CompleteDone(false))
      else (s.(described := Some(declared)), Clearing)
    case Clearing => if luck.fault then (s, CompleteDone(false)) else (s.(multipart := false), Marking(declared))
    case Checking(accepted) => Checked(s, declared, accepted, luck)
  }

  predicate InStore(phase: CompletePhase) {
    phase.Storing? || phase.Publishing? || phase.Describing? || phase.Clearing? || phase.Checking?
  }

  // ---- The calls, one step at a time --------------------------------------------------

  /** `valid` is the outcome of checking the listed parts. */
  function CompleteStep(s: Shared, phase: CompletePhase, declared: Object, store: Store, valid: bool, luck: Luck): (Shared, CompletePhase) {
    match phase
    case CompleteStart =>
      if luck.fault then (s, CompleteDone(false))
      else if s.state == Completed && s.asset == AssetReady then (s, CompleteDone(true))
      else if !valid then (s, CompleteDone(false))
      else if s.state in {Pending, Uploading} then (s, if s.expiresAt <= s.now then CompleteDone(false) else Claiming)
      else (s, if s.state == Completing then Storing else CompleteDone(false))
    case Claiming =>
      var (after, ok) := ClaimedCompleting(s);
      if luck.fault then (s, CompleteDone(false)) else (after, if ok then Storing else CompleteDone(false))
    case Marking(info) =>
      var (after, ok) := MarkedCompleted(s, info);
      if luck.fault then (s, Rereading) else (after, if ok then CompleteDone(true) else Rereading)
    case Rereading =>
      if luck.fault then (s, CompleteDone(false))
      else if s.state == Completed && s.asset == AssetReady then (s, CompleteDone(true))
      else (s, if InAbort(s.state) then Compensating else CompleteDone(false))
    case Compensating =>
      if luck.fault then (s, CompleteDone(false))
      else if store == Remote then (s.(file := None, described := None), CompleteDone(false))
      else (s.(file := None), RemovingMetadata)
    case RemovingMetadata => (if luck.fault then s else s.(described := None), CompleteDone(false))
    case CompleteDone(_) => (s, phase)
    case _ => StoreStep(s, phase, declared, store, luck)
  }

  function AbortStep(s: Shared, phase: AbortPhase, luck: Luck): (Shared, AbortPhase) {
    match phase
    case AbortStart(stale) =>
      if luck.fault then (s, AbortDone(false))
      else if s.state == Aborted then (s, AbortDone(true))
      else if s.state == Completed || s.asset == AssetReady then (s, AbortDone(false))
      else (s, if s.state == Aborting then AbortingStore else ClaimingAbort(stale))
    case ClaimingAbort(stale) =>
      var (after, ok) := ClaimedAborting(s, stale);
      if luck.fault then (s, AbortDone(false)) else (after, if ok then AbortingStore else AbortDone(false))
    case AbortingStore => if luck.fault then (s, AbortDone(false)) else (s.(multipart := false), MarkingAbort)
    case MarkingAbort =>
      var (after, ok) := MarkedAborted(s);
      if luck.fault then (s, AbortDone(false)) else (after, AbortDone(ok))
    case AbortDone(_) => (s, phase)
  }

  // ---- The same calls as programs -----------------------------------------------------

  /** What chance has in store for each phase of one call. */
  type Chance = CompletePhase -> Luck

  type AbortChance = AbortPhase -> Luck

  /** The rows and the store, with the guarded updates as methods. */
  class Backend {
    const declared: Object
    const store: Store
    var s: Shared

    constructor (declared: Object, store: Store, now: int, expiresAt: int)
      ensures s == Fresh(now, expiresAt) && this.declared == declared && this.store == store
    {
      this.declared, this.store := declared, store;
      s := Shared(now, Uploading, now, expiresAt, AssetUploading, None, None, None, true);
    }

    method ClaimCompleting() returns (ok: bool)
      modifies this
      ensures (s, ok) == ClaimedCompleting(old(s))
      ensures ok <==> old(s).state in {Pending, Uploading}
      ensures s == if ok then old(s).(state := Completing, updatedAt := s.now) else old(s)
    {
      if s.state != Pending && s.state != Uploading {
        return false;
      }
      s := s.(state := Completing, updatedAt := s.now);
      return true;
    }

    method ClaimAborting(stale: Option<int>) returns (ok: bool)
      modifies this
      ensures (s, ok) == ClaimedAborting(old(s), stale)
      ensures ok <==>
        old(s).state in {Pending, Uploading, FailedUpload} || (old(s).state == Completing && stale.Some? && old(s).updatedAt <= stale.value)
      ensures s == if ok then old(s).(state := Aborting, updatedAt := s.now) else old(s)
    {
      var idle := s.state == Pending || s.state == Uploading || s.state == FailedUpload;
      if !idle && (stale.None? || s.state != Completing || s.updatedAt > stale.value) {
        return false;
      }
      s := s.(state := Aborting, updatedAt := s.now);
      return true;
    }

    /** Two updates in one transaction: when the asset update misses, the upload update is undone. */
    method MarkCompleted(info: Object) returns (ok: bool)
      modifies this
      ensures (s, ok) == MarkedCompleted(old(s), info)
      ensures ok <==>
        old(s).state in {Completing, Completed} && old(s).asset in {AssetPending, AssetUploading, Uploaded, Verifying, AssetReady}
      ensures s == if ok then old(s).(state := Completed, updatedAt := s.now, asset := AssetReady, verified := Some(info)) else old(s)
    {
      if s.state != Completing && s.state != Completed {
        return false;
      }
      var before := s;
      s := s.(state := Completed, updatedAt := s.now);
      if !Live(s.asset) {
        s := before; // rollback
        return false;
      }
      s := s.(asset := AssetReady, verified := Some(info));
      return true;
    }

    method MarkAborted() returns (ok: bool)
      modifies this
      ensures (s, ok) == MarkedAborted(old(s))
      ensures ok <==> old(s).state in {Aborting, Aborted}
      ensures ok && old(s).asset == AssetReady ==> s == old(s).(state := Aborted, updatedAt := s.now)
      ensures ok && old(s).asset != AssetReady ==> s == old(s).(state := Aborted, updatedAt := s.now, asset := AssetFailed)
      ensures !ok ==> s == old(s)
    {
      if s.state != Aborting && s.state != Aborted {
        return false;
      }
      s := s.(state := Aborted, updatedAt := s.now);
      if s.asset != AssetReady {
        s := s.(asset := AssetFailed);
      }
      return true;
    }

    /** A hard link never replaces an existing file; what follows describes the new one. */
    method PublishAssembled(luck: Chance) returns (info: Option<Object>)
      modifies this
      ensures (s, AfterStore(info)) == StoreAlone(old(s), Publishing, declared, store, luck)
      ensures old(s).file.Some? ==> s.file == old(s).file && s.described == old(s).described && (info == None ==> s == old(s))
    {
      if luck(Publishing).fault {
        return None;
      }
      if s.file.Some? {
        if Reported(s) != Some(declared) {
          return None;
        }
        if luck(Publishing).effect {
          s := s.(multipart := false);
        }
        return Some(declared);
      }
      s := s.(file := Some(declared));
      info := DescribePublished(luck);
    }

    method DescribePublished(luck: Chance) returns (info: Option<Object>)
      modifies this
      ensures (s, AfterStore(info)) == StoreAlone(old(s), Describing, declared, store, luck)
    {
      if luck(Describing).fault {
        if luck(Describing).effect {
          s := s.(file := None);
        }
        return None;
      }
      s := s.(described := Some(declared));
      assert StoreAlone(s, Clearing, declared, store, luck)
        == if luck(Clearing).fault then (s, CompleteDone(false)) else (s.(multipart := false), Marking(declared));
      if luck(Clearing).fault {
        return None;
      }
      s := s.(multipart := false);
      return Some(declared);
    }

    /** The remote store: one request, and a check of what it left. */
    method CompleteRemotely(luck: Chance) returns (info: Option<Object>)
      requires store == Remote
      modifies this
      ensures (s, AfterStore(info)) == StoreAlone(old(s), Storing, declared, store, luck)
    {
      var accepted := s.multipart && !luck(Storing).fault;
      if accepted || (s.multipart && luck(Storing).effect) {
        s := s.(file := Some(luck(Storing).assembled), described := Some(luck(Storing).assembled), multipart := false);
      }
      assert StoreAlone(old(s), Storing, declared, store, luck) == StoreAlone(s, Checking(accepted), declared, store, luck);
      if luck(Checking(accepted)).fault {
        return None;
      }
      if Reported(s) == Some(declared) {
        return Some(declared);
      }
      if accepted {
        s := s.(file := None, described := None);
      }
      return None;
    }

    /** `CompleteMultipart`: whatever it returns is the declared object. */
    method CompleteMultipart(luck: Chance) returns (info: Option<Object>)
      modifies this
      ensures (s, AfterStore(info)) == StoreAlone(old(s), Storing, declared, store, luck)
      ensures info.Some? ==>
        info.value == declared && s.file.Some? && s.described == Some(declared) && s.file.value.size == declared.size
      // a wrong object is never left behind by a remote store that can be asked about it
      ensures store == Remote && old(s).multipart && (forall phase :: !luck(phase).fault) && luck(Storing).assembled != declared ==>
        info == None && s.file == None && s.described == None
    {
      StoreAloneIs(s, Storing, declared, store, luck);
      if store == Remote {
        info := CompleteRemotely(luck);
        return;
      }
      if luck(Storing).fault {
        return None;
      }
      if !s.multipart {
        return if Reported(s) == Some(declared) then Some(declared) else None;
      }
      if luck(Storing).assembled.size != declared.size || luck(Storing).assembled.sha256 != declared.sha256 {
        return None;
      }
      info := PublishAssembled(luck);
    }

    /** `CompleteUpload` with nobody in between: the steps above, run to the end. */
    method CompleteUpload(valid: bool, luck: Chance) returns (ok: bool)
      modifies this
      ensures (s, CompleteDone(ok)) == CompleteAlone(old(s), CompleteStart, declared, store, valid, luck)
      // an upload that can be completed is completed
      ensures
        && (old(s).state == Completing || (old(s).state in {Pending, Uploading} && old(s).now < old(s).expiresAt))
        && old(s).asset in {AssetPending, AssetUploading, Uploaded, Verifying, AssetReady}
        && valid && old(s).multipart && old(s).file == None
        && (forall phase :: !luck(phase).fault) && luck(Storing).assembled == declared ==>
          && ok && s.state == Completed && s.asset == AssetReady && s.verified == Some(declared)
          && s.file == Some(declared) && s.described == Some(declared) && !s.multipart
      // one that has expired, or is being aborted or has failed, is refused, and so is a bad list of parts
      ensures
        || (old(s).state in {Pending, Uploading} && old(s).expiresAt <= old(s).now)
        || old(s).state in {Aborting, Aborted, Expired, FailedUpload} || (!valid && old(s).state != Completed) ==>
          !ok && s == old(s)
      // and completing it again changes nothing
      ensures old(s).state == Completed && old(s).asset == AssetReady && !luck(CompleteStart).fault ==> ok && s == old(s)
    {
      CompletionSucceeds(s, declared, store, valid, luck);
      if luck(CompleteStart).fault {
        return false; // the upload could not be read
      }
      if s.state == Completed && s.asset == AssetReady {
        return true;
      }
      if !valid {
        return false;
      }
      if s.state == Pending || s.state == Uploading {
        if s.expiresAt <= s.now {
          return false;
        }
        if luck(Claiming).fault {
          return false;
        }
        var claimed := ClaimCompleting();
        if !claimed {
          return false;
        }
      } else if s.state != Completing {
        return false;
      }
      assert CompleteAlone(old(s), CompleteStart, declared, store, valid, luck) == CompleteAlone(s, Storing, declared, store, valid, luck);
      ok := StoreAndMark(valid, luck);
    }

    /** What CompleteUpload does once the upload is its own. */
    method StoreAndMark(valid: bool, luck: Chance) returns (ok: bool)
      modifies this
      ensures (s, CompleteDone(ok)) == CompleteAlone(old(s), Storing, declared, store, valid, luck)
    {
      StoreFirst(s, Storing, declared, store, valid, luck);
      var info := CompleteMultipart(luck);
      if info.None? {
        return false;
      }
      ok := false;
      if !luck(Marking(info.value)).fault {
        ok := MarkCompleted(info.value);
      }
      if !ok {
        ok := Recover(valid, luck);
      }
    }

    /** What CompleteUpload does when the completion could not be recorded. */
    method Recover(valid: bool, luck: Chance) returns (ok: bool)
      modifies this
      ensures (s, CompleteDone(ok)) == CompleteAlone(old(s), Rereading, declared, store, valid, luck)
      ensures ok <==> !luck(Rereading).fault && old(s).state == Completed && old(s).asset == AssetReady
      ensures old(s).state !in {Aborting, Aborted, Expired} || luck(Rereading).fault ==> s == old(s)
      ensures old(s).state in {Aborting, Aborted, Expired} && (forall phase :: !luck(phase).fault) ==> s == old(s).(file := None, described := None)
    {
      if luck(Rereading).fault {
        return false; // nothing is known, so nothing is deleted
      }
      if s.state == Completed && s.asset == AssetReady {
        return true;
      }
      if s.state == Aborting || s.state == Aborted || s.state == Expired {
        DeleteObject(valid, luck);
      }
      return false;
    }

    /** The local store removes the object first and its description second. */
    method DeleteObject(valid: bool, luck: Chance)
      modifies this
      ensures (s, CompleteDone(false)) == CompleteAlone(old(s), Compensating, declared, store, valid, luck)
      ensures (forall phase :: !luck(phase).fault) ==> s == old(s).(file := None, described := None)
    {
      if luck(Compensating).fault {
        return;
      }
      s := s.(file := None);
      if store == Remote {
        s := s.(described := None);
        return;
      }
      assert CompleteAlone(old(s), Compensating, declared, store, valid, luck) == CompleteAlone(s, RemovingMetadata, declared, store, valid, luck);
      if !luck(RemovingMetadata).fault {
        s := s.(described := None);
      }
    }

    method AbortUpload(stale: Option<int>, luck: AbortChance) returns (ok: bool)
      modifies this
      ensures (s, AbortDone(ok)) == AbortAlone(old(s), AbortStart(stale), luck)
      // without faults an upload that is not completing or completed is aborted
      ensures old(s).state in {Pending, Uploading, FailedUpload, Aborting} && old(s).asset != AssetReady && (forall phase :: !luck(phase).fault) ==>
        ok && s.state == Aborted && s.asset == AssetFailed && !s.multipart
      ensures old(s).state == Aborted && !luck(AbortStart(stale)).fault ==> ok && s == old(s)
      ensures old(s).state in {Completed, Expired} || (old(s).asset == AssetReady && old(s).state != Aborted) ==> !ok && s == old(s)
      // one that is being completed is only aborted once the completion is stale
      ensures old(s).state == Completing && !(stale.Some? && old(s).updatedAt <= stale.value) ==> !ok && s == old(s)
      ensures
        && old(s).state == Completing && stale.Some? && old(s).updatedAt <= stale.value && old(s).asset != AssetReady
        && (forall phase :: !luck(phase).fault) ==>
          ok && s.state == Aborted && s.asset == AssetFailed && !s.multipart
    {
      AbortSucceeds(s, stale, luck);
      if luck(AbortStart(stale)).fault {
        return false;
      }
      if s.state == Aborted {
        return true;
      }
      if s.state == Completed || s.asset == AssetReady {
        return false;
      }
      if s.state != Aborting {
        assert AbortAlone(s, AbortStart(stale), luck) == AbortAlone(s, ClaimingAbort(stale), luck);
        if luck(ClaimingAbort(stale)).fault {
          assert AbortAlone(s, ClaimingAbort(stale), luck) == AbortAlone(s, AbortDone(false), luck);
          return false;
        }
        ghost var before := s;
        var granted := ClaimAborting(stale);
        if !granted {
          assert AbortAlone(before, ClaimingAbort(stale), luck) == AbortAlone(s, AbortDone(false), luck);
          return false;
        }
        assert AbortAlone(before, ClaimingAbort(stale), luck) == AbortAlone(s, AbortingStore, luck);
      }
      ok := AbortStored(luck);
    }

    method AbortStored(luck: AbortChance) returns (ok: bool)
      modifies this
      ensures (s, AbortDone(ok)) == AbortAlone(old(s), AbortingStore, luck)
    {
      if luck(AbortingStore).fault {
        return false;
      }
      s := s.(multipart := false);
      assert AbortAlone(old(s), AbortingStore, luck) == AbortAlone(s, MarkingAbort, luck);
      if luck(MarkingAbort).fault {
        return false;
      }
      ok := MarkAborted();
    }
  }

  function Fresh(now: int, expiresAt: int): Shared { Shared(now, Uploading, now, expiresAt, AssetUploading, None, None, None, true) }

  function AfterStore(info: Option<Object>): CompletePhase { if info.Some? then Marking(info.value) else CompleteDone(false) }

  function Distance(phase: CompletePhase): nat {
    match phase
    case CompleteStart => 10
    case Claiming => 9
    case Storing => 8
    case Publishing => 7
    case Describing => 6
    case Clearing => 5
    case Checking(_) => 5
    case Marking(_) => 4
    case Rereading => 3
    case Compensating => 2
    case RemovingMetadata => 1
    case CompleteDone(_) => 0
  }

  /** The store's part of a call with nobody in between. */
  function StoreAlone(s: Shared, phase: CompletePhase, declared: Object, store: Store, luck: Chance): (Shared, CompletePhase)
    decreases Distance(phase)
  {
    if !InStore(phase) then (s, phase)
    else
      var (after, next) := StoreStep(s, phase, declared, store, luck(phase));
      StoreAlone(after, next, declared, store, luck)
  }

  function CompleteAlone(s: Shared, phase: CompletePhase, declared: Object, store: Store, valid: bool, luck: Chance): (Shared, CompletePhase)
    decreases Distance(phase)
  {
    if phase.CompleteDone? then (s, phase)
    else
      var (after, next) := CompleteStep(s, phase, declared, store, valid, luck(phase));
      CompleteAlone(after, next, declared, store, valid, luck)
  }

  /** The store returns the declared object or fails. */
  lemma {:induction false} StoreAloneIs(s: Shared, phase: CompletePhase, declared: Object, store: Store, luck: Chance)
    requires InStore(phase)
    ensures StoreAlone(s, phase, declared, store, luck).1 in {Marking(declared), CompleteDone(false)}
    decreases Distance(phase)
  {
    var (after, next) := StoreStep(s, phase, declared, store, luck(phase));
    if InStore(next) { StoreAloneIs(after, next, declared, store, luck); }
  }

  lemma {:induction false} StoreFirst(s: Shared, phase: CompletePhase, declared: Object, store: Store, valid: bool, luck: Chance)
    ensures
      var (after, next) := StoreAlone(s, phase, declared, store, luck);
      CompleteAlone(s, phase, declared, store, valid, luck) == CompleteAlone(after, next, declared, store, valid, luck)
    decreases Distance(phase)
  {
    if InStore(phase) {
      var (after, next) := StoreStep(s, phase, declared, store, luck(phase));
      StoreFirst(after, next, declared, store, valid, luck);
    }
  }

  function AbortDistance(phase: AbortPhase): nat {
    match phase
    case AbortStart(_) => 4
    case ClaimingAbort(_) => 3
    case AbortingStore => 2
    case MarkingAbort => 1
    case AbortDone(_) => 0
  }

  function AbortAlone(s: Shared, phase: AbortPhase, luck: AbortChance): (Shared, AbortPhase)
    decreases AbortDistance(phase)
  {
    if phase.AbortDone? then (s, phase)
    else
      var (after, next) := AbortStep(s, phase, luck(phase));
      AbortAlone(after, next, luck)
  }

  // ---- A call that succeeds -----------------------------------------------------------

  /** The parts are there, they assemble to the declared object, and nothing goes wrong. */
  ghost predicate Smooth(s: Shared, declared: Object, luck: Chance) {
    s.multipart && s.file == None && (forall phase :: !luck(phase).fault) && luck(Storing).assembled == declared
  }

  lemma StoringSucceeds(s: Shared, declared: Object, store: Store, luck: Chance)
    requires Smooth(s, declared, luck)
    ensures StoreAlone(s, Storing, declared, store, luck)
      == (s.(file := Some(declared), described := Some(declared), multipart := false), Marking(declared))
  {
    var (s1, p1) := StoreStep(s, Storing, declared, store, luck(Storing));
    var (s2, p2) := StoreStep(s1, p1, declared, store, luck(p1));
    if store == Local {
      assert p1 == Publishing && p2 == Describing;
      var (s3, p3) := StoreStep(s2, p2, declared, store, luck(p2));
      var (s4, p4) := StoreStep(s3, p3, declared, store, luck(p3));
      assert p3 == Clearing && p4 == Marking(declared);
      assert StoreAlone(s2, p2, declared, store, luck) == StoreAlone(s3, p3, declared, store, luck) == (s4, p4);
    } else {
      assert p1 == Checking(true) && p2 == Marking(declared);
    }
  }

  lemma StoredIsMarked(s: Shared, declared: Object, store: Store, valid: bool, luck: Chance)
    requires Smooth(s, declared, luck) && s.state == Completing && s.asset in {AssetPending, AssetUploading, Uploaded, Verifying, AssetReady}
    ensures CompleteAlone(s, Storing, declared, store, valid, luck)
      == (s.(file := Some(declared), described := Some(declared), multipart := false,
             state := Completed, updatedAt := s.now, asset := AssetReady, verified := Some(declared)), CompleteDone(true))
  {
    StoringSucceeds(s, declared, store, luck);
    StoreFirst(s, Storing, declared, store, valid, luck);
  }

  lemma CompletionSucceeds(s: Shared, declared: Object, store: Store, valid: bool, luck: Chance)
    ensures
      && (s.state == Completing || (s.state in {Pending, Uploading} && s.now < s.expiresAt))
      && s.asset in {AssetPending, AssetUploading, Uploaded, Verifying, AssetReady} && valid && Smooth(s, declared, luck) ==>
        var (after, phase) := CompleteAlone(s, CompleteStart, declared, store, valid, luck);
        && phase == CompleteDone(true) && after.state == Completed && after.asset == AssetReady && after.verified == Some(declared)
        && after.file == Some(declared) && after.described == Some(declared) && !after.multipart
    ensures s.state == Completed && s.asset == AssetReady && !luck(CompleteStart).fault ==>
      CompleteAlone(s, CompleteStart, declared, store, valid, luck) == (s, CompleteDone(true))
  {
    var claimed := s.(state := Completing, updatedAt := s.now);
    if valid && Smooth(s, declared, luck) && s.asset in {AssetPending, AssetUploading, Uploaded, Verifying, AssetReady} {
      if s.state == Completing {
        StoredIsMarked(s, declared, store, valid, luck);
        assert CompleteAlone(s, CompleteStart, declared, store, valid, luck) == CompleteAlone(s, Storing, declared, store, valid, luck);
      } else if s.state in {Pending, Uploading} && s.now < s.expiresAt {
        StoredIsMarked(claimed, declared, store, valid, luck);
        assert CompleteAlone(s, CompleteStart, declared, store, valid, luck) == CompleteAlone(s, Claiming, declared, store, valid, luck)
            == CompleteAlone(claimed, Storing, declared, store, valid, luck);
      }
    }
  }

  lemma AbortSucceeds(s: Shared, stale: Option<int>, luck: AbortChance)
    ensures s.state in {Pending, Uploading, FailedUpload, Aborting} && s.asset != AssetReady && (forall phase :: !luck(phase).fault) ==>
      var (after, phase) := AbortAlone(s, AbortStart(stale), luck);
      phase == AbortDone(true) && after.state == Aborted && after.asset == AssetFailed && !after.multipart
    ensures s.state == Aborted && !luck(AbortStart(stale)).fault ==> AbortAlone(s, AbortStart(stale), luck) == (s, AbortDone(true))
    ensures s.state == Completed ==> AbortAlone(s, AbortStart(stale), luck) == (s, AbortDone(false))
  {
    var claimed := if s.state == Aborting then s else s.(state := Aborting, updatedAt := s.now);
    if s.state in {Pending, Uploading, FailedUpload, Aborting} && s.asset != AssetReady && (forall phase :: !luck(phase).fault) {
      assert AbortAlone(s, AbortStart(stale), luck) == AbortAlone(claimed, AbortingStore, luck) by {
        if s.state != Aborting {
          assert AbortAlone(s, AbortStart(stale), luck) == AbortAlone(s, ClaimingAbort(stale), luck) == AbortAlone(claimed, AbortingStore, luck);
        }
      }
      assert AbortAlone(claimed, AbortingStore, luck) == AbortAlone(claimed.(multipart := false), MarkingAbort, luck);
    }
  }

  // ---- All interleavings --------------------------------------------------------------

  /** `cleaners` are the cleanup jobs that have removed the object and not yet its description;
      `compensated` records whether a compensating delete ever ran. */
  datatype World = World(
    s: Shared, completers: map<nat, CompletePhase>, aborters: map<nat, AbortPhase>, cleaners: set<nat>, compensated: bool)

  datatype Action =
    | Tick(elapsed: nat)
    | NewCompleter(id: nat)
    | NewAborter(id: nat, stale: Option<int>)
    | CompleterStep(id: nat, valid: bool, luck: Luck)
    | AborterStep(id: nat, luck: Luck)
    | Crash(id: nat)
    | ExpireAsset
    | DeleteAsset
    | RemoveObject(id: nat)
    | RemoveDescription(id: nat, marked: bool)
    | CleanupFailed

  /** The upload as the service created it: which object was declared, and to which store. */
  datatype Request = Request(declared: Object, store: Store)

  function Created(now: int, expiresAt: int): World { World(Fresh(now, expiresAt), map[], map[], {}, false) }

  function Step(w: World, r: Request, a: Action): World {
    match a
    case Tick(elapsed) => w.(s := w.s.(now := w.s.now + elapsed))
    case NewCompleter(id) => if id in w.completers then w else w.(completers := w.completers[id := CompleteStart])
    case NewAborter(id, stale) => if id in w.aborters then w else w.(aborters := w.aborters[id := AbortStart(stale)])
    case CompleterStep(id, valid, luck) =>
      if id !in w.completers then w
      else
        var (after, next) := CompleteStep(w.s, w.completers[id], r.declared, r.store, valid, luck);
        w.(s := after, completers := w.completers[id := next], compensated := w.compensated || w.completers[id] == Compensating)
    case AborterStep(id, luck) =>
      if id !in w.aborters then w
      else
        var (after, next) := AbortStep(w.s, w.aborters[id], luck);
        w.(s := after, aborters := w.aborters[id := next])
    case Crash(id) => w.(completers := w.completers - {id}, aborters := w.aborters - {id}, cleaners := w.cleaners - {id})
    case ExpireAsset => if w.s.asset in {AssetReady, AssetFailed} then w.(s := w.s.(asset := Deleting)) else w
    case DeleteAsset => if w.s.asset != Deleted then w.(s := w.s.(asset := Deleting)) else w
    case RemoveObject(id) =>
      if w.s.asset !in {Deleting, AssetFailed} then w
      else if r.store == Remote then w.(s := w.s.(file := None, described := None), cleaners := w.cleaners + {id})
      else w.(s := w.s.(file := None), cleaners := w.cleaners + {id})
    case RemoveDescription(id, marked) =>
      if id !in w.cleaners then w
      else
        var asset := if marked && w.s.asset in {Deleting, AssetFailed} then Deleted else w.s.asset;
        w.(s := w.s.(described := if r.store == Local then None else w.s.described, asset := asset), cleaners := w.cleaners - {id})
    case CleanupFailed => if w.s.asset == Deleting then w.(s := w.s.(asset := AssetFailed)) else w
  }

  function Run(w: World, r: Request, actions: seq<Action>): World
    decreases |actions|
  {
    if actions == [] then w else Run(Step(w, r, actions[0]), r, actions[1..])
  }

  /** No completion can be recorded any more. */
  predicate Doomed(s: Shared) { InAbort(s.state) || !Live(s.asset) }

  predicate Claimed(s: Shared) { s.state in {Completing, Completed} || Doomed(s) }

  predicate Stored(s: Shared, declared: Object) { Reported(s) == Some(declared) || Doomed(s) }

  /** The object is published and not yet described. */
  predicate Bare(s: Shared, declared: Object) { s.file == Some(declared) && s.described.None? }

  predicate CompleterOk(s: Shared, r: Request, phase: CompletePhase) {
    match phase
    case CompleteStart => true
    case Claiming => true
    case Storing => Claimed(s)
    case Publishing => Claimed(s) && r.store == Local
    case Describing => Claimed(s) && r.store == Local && (Bare(s, r.declared) || Doomed(s))
    case Clearing => Claimed(s) && r.store == Local && Stored(s, r.declared)
    case Checking(_) => Claimed(s) && r.store == Remote
    case Marking(info) => Claimed(s) && info == r.declared && Stored(s, r.declared)
    case Rereading => Claimed(s)
    case Compensating => InAbort(s.state)
    case RemovingMetadata => InAbort(s.state)
    case CompleteDone(ok) => ok ==> s.state == Completed
  }

  predicate AborterOk(s: Shared, phase: AbortPhase) {
    match phase
    case AbortStart(_) => true
    case ClaimingAbort(_) => true
    case AbortingStore => s.state in {Aborting, Aborted}
    case MarkingAbort => s.state in {Aborting, Aborted}
    case AbortDone(ok) => ok ==> s.state == Aborted
  }

  /** Unless the upload is doomed, the local store holds the declared object or none, and the
      remote one has spent the parts of whatever it holds. */
  predicate StoreOk(s: Shared, r: Request) {
    Doomed(s) || match r.store
      case Local => (s.file.Some? ==> s.file.value == r.declared) && (s.described.Some? ==> s.described.value == r.declared && s.file.Some?)
      case Remote => s.file == s.described && (s.file.Some? ==> !s.multipart)
  }

  predicate SharedOk(s: Shared, r: Request) {
    && s.state in {Uploading, Completing, Aborting, Completed, Aborted}
    && (s.asset == AssetReady ==> s.state == Completed && Reported(s) == Some(r.declared) && s.verified == Some(r.declared))
    && (s.state == Completed ==> !Live(s.asset) || s.asset == AssetReady)
    && StoreOk(s, r)
  }

  /** Only one call can be about to describe the object. */
  predicate OneDescribes(w: World) {
    Doomed(w.s) || forall i, j :: i in w.completers && j in w.completers && w.completers[i] == Describing && w.completers[j] == Describing ==> i == j
  }

  ghost predicate Inv(w: World, r: Request) {
    && SharedOk(w.s, r) && OneDescribes(w)
    && (forall i :: i in w.completers ==> CompleterOk(w.s, r, w.completers[i]))
    && (forall i :: i in w.aborters ==> AborterOk(w.s, w.aborters[i]))
    && (w.compensated ==> InAbort(w.s.state))
    && (w.cleaners != {} ==> !Live(w.s.asset))
  }

  /** What a step may do to the rows and the store, as far as the others are concerned. */
  predicate Moves(s: Shared, s': Shared, r: Request) {
    && (s.state == Completed ==> s'.state == Completed)
    && (s.state == Aborted ==> s'.state == Aborted)
    && (InAbort(s.state) ==> InAbort(s'.state))
    && (s.state == Completing ==> s'.state in {Completing, Completed} || InAbort(s'.state))
    && (!Live(s.asset) ==> !Live(s'.asset))
    && (s.state == Aborting ==> s'.state in {Aborting, Aborted})
    && (Stored(s, r.declared) ==> Stored(s', r.declared))
  }

  /** A published object waits for its description as long as nobody else describes it. */
  predicate Waits(s: Shared, s': Shared, r: Request) {
    r.store == Local && Bare(s, r.declared) ==> Bare(s', r.declared) || Doomed(s')
  }

  lemma OthersKeep(s: Shared, s': Shared, r: Request, phase: CompletePhase)
    requires Moves(s, s', r) && CompleterOk(s, r, phase) && (phase == Describing ==> Waits(s, s', r))
    ensures CompleterOk(s', r, phase)
  {
  }

  lemma AbortersKeep(s: Shared, s': Shared, r: Request, phase: AbortPhase)
    requires Moves(s, s', r) && AborterOk(s, phase)
    ensures AborterOk(s', phase)
  {
  }

  lemma CompleterMoves(s: Shared, phase: CompletePhase, r: Request, valid: bool, luck: Luck)
    requires SharedOk(s, r) && CompleterOk(s, r, phase)
    ensures
      var (s', next) := CompleteStep(s, phase, r.declared, r.store, valid, luck);
      Moves(s, s', r) && SharedOk(s', r) && CompleterOk(s', r, next) && (phase == Describing || Waits(s, s', r))
  {
  }

  lemma AborterMoves(s: Shared, phase: AbortPhase, r: Request, luck: Luck)
    requires SharedOk(s, r) && AborterOk(s, phase)
    ensures
      var (s', next) := AbortStep(s, phase, luck);
      Moves(s, s', r) && SharedOk(s', r) && AborterOk(s', next) && Waits(s, s', r)
  {
  }

  lemma StepMoves(w: World, r: Request, a: Action)
    requires Inv(w, r)
    ensures
      var s' := Step(w, r, a).s;
      Moves(w.s, s', r) && SharedOk(s', r) && (Waits(w.s, s', r) || (a.CompleterStep? && a.id in w.completers && w.completers[a.id] == Describing))
  {
    if a.CompleterStep? && a.id in w.completers {
      CompleterMoves(w.s, w.completers[a.id], r, a.valid, a.luck);
    } else if a.AborterStep? && a.id in w.aborters {
      AborterMoves(w.s, w.aborters[a.id], r, a.luck);
    }
  }

  /** Who starts to describe finds no object, so nobody is describing one. */
  lemma PublisherIsAlone(s: Shared, phase: CompletePhase, r: Request, valid: bool, luck: Luck)
    requires CompleteStep(s, phase, r.declared, r.store, valid, luck).1 == Describing
    ensures s.file.None?
  {
  }

  lemma StepKeepsOne(w: World, r: Request, a: Action)
    requires Inv(w, r)
    ensures OneDescribes(Step(w, r, a))
  {
    StepMoves(w, r, a);
    if a.CompleterStep? && a.id in w.completers {
      if CompleteStep(w.s, w.completers[a.id], r.declared, r.store, a.valid, a.luck).1 == Describing {
        PublisherIsAlone(w.s, w.completers[a.id], r, a.valid, a.luck);
      }
    }
  }

  lemma CompleterStays(w: World, r: Request, a: Action, i: nat)
    requires Inv(w, r) && i in Step(w, r, a).completers
    ensures CompleterOk(Step(w, r, a).s, r, Step(w, r, a).completers[i])
  {
    StepMoves(w, r, a);
    if a.CompleterStep? && a.id == i {
      CompleterMoves(w.s, w.completers[i], r, a.valid, a.luck);
    } else if i in w.completers {
      OthersKeep(w.s, Step(w, r, a).s, r, w.completers[i]);
    }
  }

  lemma AborterStays(w: World, r: Request, a: Action, i: nat)
    requires Inv(w, r) && i in Step(w, r, a).aborters
    ensures AborterOk(Step(w, r, a).s, Step(w, r, a).aborters[i])
  {
    StepMoves(w, r, a);
    if a.AborterStep? && a.id == i {
      AborterMoves(w.s, w.aborters[i], r, a.luck);
    } else if i in w.aborters {
      AbortersKeep(w.s, Step(w, r, a).s, r, w.aborters[i]);
    }
  }

  lemma StepKeeps(w: World, r: Request, a: Action)
    requires Inv(w, r)
    ensures Inv(Step(w, r, a), r)
  {
    var w' := Step(w, r, a);
    StepMoves(w, r, a);
    StepKeepsOne(w, r, a);
    forall i | i in w'.completers ensures CompleterOk(w'.s, r, w'.completers[i]) { CompleterStays(w, r, a, i); }
    forall i | i in w'.aborters ensures AborterOk(w'.s, w'.aborters[i]) { AborterStays(w, r, a, i); }
  }

  lemma {:induction false} RunKeeps(w: World, r: Request, actions: seq<Action>)
    requires Inv(w, r)
    ensures Inv(Run(w, r, actions), r)
    decreases |actions|
  {
    if actions != [] {
      StepKeeps(w, r, actions[0]);
      RunKeeps(Step(w, r, actions[0]), r, actions[1..]);
    }
  }

  // ---- Upload agreement ---------------------------------------------------------------

  /** "completed" and "aborted" are final, and everyone agrees: a CompleteUpload that reported
      success means completed, an AbortUpload that reported success means aborted. */
  lemma {:induction false} OutcomesAreFinal(w: World, r: Request, actions: seq<Action>)
    requires Inv(w, r)
    ensures w.s.state == Completed ==> Run(w, r, actions).s.state == Completed
    ensures w.s.state == Aborted ==> Run(w, r, actions).s.state == Aborted
    decreases |actions|
  {
    if actions != [] {
      StepMoves(w, r, actions[0]);
      StepKeeps(w, r, actions[0]);
      OutcomesAreFinal(Step(w, r, actions[0]), r, actions[1..]);
    }
  }

  /** In every reachable state. */
  lemma UploadAgreement(now: int, expiresAt: int, r: Request, actions: seq<Action>)
    ensures
      var w := Run(Created(now, expiresAt), r, actions);
      && (forall i :: i in w.completers && w.completers[i] == CompleteDone(true) ==> w.s.state == Completed)
      && (forall i :: i in w.aborters && w.aborters[i] == AbortDone(true) ==> w.s.state == Aborted)
      && (w.s.state == Completed ==> !w.compensated)
      && (w.s.state == Completed && w.s.asset == AssetReady ==>
            Reported(w.s) == Some(r.declared) && w.s.file == Some(r.declared) && w.s.verified == Some(r.declared))
      && (w.s.state == Completed && w.s.asset != AssetReady ==> w.s.asset in {AssetFailed, Deleting, Deleted})
  {
    RunKeeps(Created(now, expiresAt), r, actions);
    var w := Run(Created(now, expiresAt), r, actions);
    forall i | i in w.completers ensures CompleterOk(w.s, r, w.completers[i]) {}
    forall i | i in w.aborters ensures AborterOk(w.s, w.aborters[i]) {}
  }

  /** A compensating delete that ran, or is about to run, belongs to a run that never completes. */
  lemma CompensationNeverHitsCompletion(w: World, r: Request, actions: seq<Action>)
    requires Inv(w, r)
    requires w.compensated || exists i :: i in w.completers && w.completers[i] == Compensating
    ensures Run(w, r, actions).s.state in {Aborting, Aborted, Expired}
  {
    assert InAbort(w.s.state);
    AbortIsFinal(w, r, actions);
  }

  lemma {:induction false} AbortIsFinal(w: World, r: Request, actions: seq<Action>)
    requires Inv(w, r) && InAbort(w.s.state)
    ensures InAbort(Run(w, r, actions).s.state)
    decreases |actions|
  {
    if actions != [] {
      StepMoves(w, r, actions[0]);
      StepKeeps(w, r, actions[0]);
      AbortIsFinal(Step(w, r, actions[0]), r, actions[1..]);
    }
  }

  // ---- A crash between publishing and describing --------------------------------------

  /** A published object that nobody is going to describe. */
  ghost predicate Abandoned(w: World) {
    w.s.file.Some? && w.s.described.None? && forall i :: i in w.completers ==> w.completers[i] != Describing
  }

  ghost predicate Hopeless(w: World) {
    (w.s.state == Completing || InAbort(w.s.state)) && (Doomed(w.s) || Abandoned(w))
  }

  lemma HopelessCompleter(w: World, r: Request, a: Action)
    requires Inv(w, r) && r.store == Local && Hopeless(w) && a.CompleterStep? && a.id in w.completers
    ensures
      var (s', next) := CompleteStep(w.s, w.completers[a.id], r.declared, r.store, a.valid, a.luck);
      (s'.state == Completing || InAbort(s'.state))
      && (Doomed(s') || (s'.file == w.s.file && s'.described == w.s.described && next != Describing))
  {
    assert CompleterOk(w.s, r, w.completers[a.id]);
  }

  lemma StaysHopeless(w: World, r: Request, a: Action)
    requires Inv(w, r) && r.store == Local && Hopeless(w)
    ensures Hopeless(Step(w, r, a))
  {
    StepMoves(w, r, a);
    if a.CompleterStep? && a.id in w.completers { HopelessCompleter(w, r, a); }
  }

  /** Every later attempt finds the object and no description of it, and is a conflict: in no
      continuation is the upload ever completed. */
  lemma {:induction false} HopelessNeverCompletes(w: World, r: Request, actions: seq<Action>)
    requires Inv(w, r) && r.store == Local && Hopeless(w)
    ensures Run(w, r, actions).s.state != Completed
    decreases |actions|
  {
    if actions != [] {
      StepKeeps(w, r, actions[0]);
      StaysHopeless(w, r, actions[0]);
      HopelessNeverCompletes(Step(w, r, actions[0]), r, actions[1..]);
    }
  }

  /** The only call so far publishes the object and crashes. */
  function CrashedCall(declared: Object): seq<Action> {
    var step := CompleterStep(0, true, Luck(false, false, declared));
    [NewCompleter(0), step, step, step, step, Crash(0)]
  }

  lemma RunCons(w: World, r: Request, a: Action, rest: seq<Action>)
    ensures Run(w, r, [a] + rest) == Run(Step(w, r, a), r, rest)
  {
    assert ([a] + rest)[1..] == rest;
  }

  lemma CrashAbandons(expiresAt: int, r: Request)
    requires r.store == Local && expiresAt > 0
    ensures
      var w := Run(Created(0, expiresAt), r, CrashedCall(r.declared));
      w.s.state == Completing && Abandoned(w)
  {
    var step, w0 := CompleterStep(0, true, Luck(false, false, r.declared)), Created(0, expiresAt);
    var w1 := Step(w0, r, NewCompleter(0));
    var w2 := Step(w1, r, step);
    var w3 := Step(w2, r, step);
    var w4 := Step(w3, r, step);
    var w5 := Step(w4, r, step);
    assert w4.completers == map[0 := Publishing] && w5.s.file == Some(r.declared);
    assert CrashedCall(r.declared) == [NewCompleter(0)] + ([step] + ([step] + ([step] + ([step] + ([Crash(0)] + [])))));
    RunCons(w0, r, NewCompleter(0), [step] + ([step] + ([step] + ([step] + ([Crash(0)] + [])))));
    RunCons(w1, r, step, [step] + ([step] + ([step] + ([Crash(0)] + []))));
    RunCons(w2, r, step, [step] + ([step] + ([Crash(0)] + [])));
    RunCons(w3, r, step, [step] + ([Crash(0)] + []));
    RunCons(w4, r, step, [Crash(0)] + []);
    RunCons(w5, r, Crash(0), []);
  }

  /** After that crash the upload is never completed, however the run goes on: it can only be
      aborted. */
  lemma CrashedCallOnlyAborts(expiresAt: int, r: Request, actions: seq<Action>)
    requires r.store == Local && expiresAt > 0
    ensures Run(Run(Created(0, expiresAt), r, CrashedCall(r.declared)), r, actions).s.state != Completed
  {
    CrashAbandons(expiresAt, r);
    RunKeeps(Created(0, expiresAt), r, CrashedCall(r.declared));
    HopelessNeverCompletes(Run(Created(0, expiresAt), r, CrashedCall(r.declared)), r, actions);
  }
}

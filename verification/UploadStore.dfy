/** The store that an upload completes into, as the local store provides it: the upload's runs,
    seen through its two files, are runs of the local store. */
module UploadStore {
  import opened Prelude
  import U = Uploads
  import L = LocalStore

  function ObjectOf(info: L.Info): U.Object { U.Object(info.size, info.sha256) }

  function Measured(hash: L.Hash, target: Option<L.Bytes>): Option<U.Object> {
    match target case None => None case Some(body) => Some(ObjectOf(L.Describe(hash, body)))
  }

  function Recorded(metadata: Option<L.Info>): Option<U.Object> {
    match metadata case None => None case Some(info) => Some(ObjectOf(info))
  }

  /** The same two files, by size and checksum. */
  predicate SameFiles(hash: L.Hash, files: L.Files, s: U.Shared) {
    s.file == Measured(hash, files.target) && s.described == Recorded(files.metadata)
  }

  /** So the upload is told what Stat reports. */
  lemma SameReport(hash: L.Hash, files: L.Files, s: U.Shared)
    requires SameFiles(hash, files, s)
    ensures U.Reported(s) == Recorded(L.Stat(files))
  {
  }

  // ---- One file operation -------------------------------------------------------------

  /** Where a call and its writer stand.  A writer that has ended well leaves only the parts to
      clear. */
  predicate SamePhase(hash: L.Hash, writer: L.Writer, phase: U.CompletePhase, declared: L.Info) {
    match writer
    case Checking(_, _) => false
    case Publishing(body) => L.Describe(hash, body) == declared && phase == U.Publishing
    case Describing(body) => L.Describe(hash, body) == declared && phase == U.Describing
    case Ended(Ok(info)) => info == declared && phase in {U.Clearing, U.Marking(ObjectOf(declared))}
    case Ended(Err(_)) => phase == U.CompleteDone(false)
  }

  lemma PublishIsStep(hash: L.Hash, files: L.Files, body: L.Bytes, s: U.Shared, described: bool, luck: U.Luck)
    requires SameFiles(hash, files, s) && !luck.fault
    ensures
      var declared := L.Describe(hash, body);
      var (files', writer') := L.WriterStep(hash, files, L.Publishing(body), described);
      var (s', phase') := U.StoreStep(s, U.Publishing, ObjectOf(declared), U.Local, luck);
      SameFiles(hash, files', s') && SamePhase(hash, writer', phase', declared)
  {
    SameReport(hash, files, s);
  }

  lemma DescribeIsStep(hash: L.Hash, files: L.Files, body: L.Bytes, s: U.Shared, luck: U.Luck)
    requires SameFiles(hash, files, s) && (luck.fault ==> luck.effect)
    ensures
      var declared := L.Describe(hash, body);
      var (files', writer') := L.WriterStep(hash, files, L.Describing(body), !luck.fault);
      var (s', phase') := U.StoreStep(s, U.Describing, ObjectOf(declared), U.Local, luck);
      SameFiles(hash, files', s') && SamePhase(hash, writer', phase', declared)
  {
  }

  /** Each file operation of a completing writer is the step of the upload's call at that point,
      whatever is in the store. */
  lemma OperationIsStep(hash: L.Hash, files: L.Files, writer: L.Writer, s: U.Shared, phase: U.CompletePhase, declared: L.Info, luck: U.Luck)
    requires SameFiles(hash, files, s) && SamePhase(hash, writer, phase, declared) && phase in {U.Publishing, U.Describing}
    requires luck.fault ==> phase == U.Describing && luck.effect
    ensures
      var (files', writer') := L.WriterStep(hash, files, writer, !luck.fault);
      var (s', phase') := U.StoreStep(s, phase, ObjectOf(declared), U.Local, luck);
      SameFiles(hash, files', s') && SamePhase(hash, writer', phase', declared)
  {
    match writer
    case Publishing(body) => PublishIsStep(hash, files, body, s, true, luck);
    case Describing(body) => DescribeIsStep(hash, files, body, s, luck);
    case _ =>
  }

  // ---- A whole run --------------------------------------------------------------------

  /** The writer and the deleter of a call, and the deleter of a cleanup job. */
  function CallId(i: nat): nat { 2 * i }

  function JobId(i: nat): nat { 2 * i + 1 }

  predicate WriterFits(body: L.Bytes, l: L.World, i: nat, phase: U.CompletePhase) {
    match phase
    case Publishing => CallId(i) in l.writers && l.writers[CallId(i)] == L.Publishing(body)
    case Describing => CallId(i) in l.writers && l.writers[CallId(i)] == L.Describing(body)
    case RemovingMetadata => CallId(i) in l.deleters && l.deleters[CallId(i)] == L.RemovingMetadata
    case _ => true
  }

  predicate CleanerFits(l: L.World, i: nat) { JobId(i) in l.deleters && l.deleters[JobId(i)] == L.RemovingMetadata }

  /** Both worlds hold the same files, and who is at a file operation in one is in the other. */
  ghost predicate Projects(hash: L.Hash, body: L.Bytes, w: U.World, l: L.World) {
    && SameFiles(hash, l.files, w.s)
    && (forall i :: i in w.completers ==> WriterFits(body, l, i, w.completers[i]))
    && (forall i :: i in w.cleaners ==> CleanerFits(l, i))
  }

  /** The file operations of one step of the upload. */
  function Operations(hash: L.Hash, body: L.Bytes, w: U.World, r: U.Request, a: U.Action): seq<L.Action> {
    match a
    case CompleterStep(id, _, luck) => if id in w.completers then CallOperations(hash, body, w.s, r, CallId(id), w.completers[id], luck) else []
    case RemoveObject(id) =>
      if w.s.asset in {U.Deleting, U.AssetFailed} then [L.Crash(JobId(id)), L.NewDeleter(JobId(id)), L.Delete(JobId(id))] else []
    case RemoveDescription(id, _) => if id in w.cleaners then [L.Delete(JobId(id))] else []
    case _ => []
  }

  function CallOperations(hash: L.Hash, body: L.Bytes, s: U.Shared, r: U.Request, id: nat, phase: U.CompletePhase, luck: U.Luck): seq<L.Action> {
    match phase
    case Storing => if s.multipart && !luck.fault && luck.assembled == r.declared then [L.Crash(id), L.NewCompleter(id, L.Describe(hash, body), body)] else []
    case Publishing => if luck.fault then [] else [L.Write(id, true)]
    case Describing => if luck.fault && !luck.effect then [] else [L.Write(id, !luck.fault)]
    case Compensating => if luck.fault then [] else [L.Crash(id), L.NewDeleter(id), L.Delete(id)]
    case RemovingMetadata => if luck.fault then [] else [L.Delete(id)]
    case _ => []
  }

  lemma RunOne(hash: L.Hash, l: L.World, a: L.Action)
    ensures L.Run(hash, l, [a]) == L.Step(hash, l, a)
  {
    assert [a][1..] == [];
  }

  lemma RunTwo(hash: L.Hash, l: L.World, a: L.Action, b: L.Action)
    ensures L.Run(hash, l, [a, b]) == L.Step(hash, L.Step(hash, l, a), b)
  {
    assert [a, b] == [a] + [b];
    L.RunCons(hash, l, a, [b]);
    RunOne(hash, L.Step(hash, l, a), b);
  }

  lemma RunThree(hash: L.Hash, l: L.World, a: L.Action, b: L.Action, c: L.Action)
    ensures L.Run(hash, l, [a, b, c]) == L.Step(hash, L.Step(hash, L.Step(hash, l, a), b), c)
  {
    assert [a, b, c] == [a] + [b, c];
    L.RunCons(hash, l, a, [b, c]);
    RunTwo(hash, L.Step(hash, l, a), b, c);
  }

  /** Who else is at a file operation stays there. */
  ghost predicate OthersStay(l: L.World, l': L.World, id: nat) {
    forall k :: k != id ==>
      && (k in l.writers ==> k in l'.writers && l'.writers[k] == l.writers[k])
      && (k in l.deleters ==> k in l'.deleters && l'.deleters[k] == l.deleters[k])
  }

  /** A Delete that gets as far as the object. */
  lemma DeleteBegins(hash: L.Hash, l: L.World, id: nat)
    ensures
      var l' := L.Run(hash, l, [L.Crash(id), L.NewDeleter(id), L.Delete(id)]);
      && l'.files == l.files.(target := None) && OthersStay(l, l', id)
      && id in l'.deleters && l'.deleters[id] == L.RemovingMetadata
  {
    RunThree(hash, l, L.Crash(id), L.NewDeleter(id), L.Delete(id));
  }

  lemma DeleteEnds(hash: L.Hash, l: L.World, id: nat)
    requires id in l.deleters && l.deleters[id] == L.RemovingMetadata
    ensures
      var l' := L.Run(hash, l, [L.Delete(id)]);
      l'.files == l.files.(metadata := None) && OthersStay(l, l', id)
  {
    RunOne(hash, l, L.Delete(id));
  }

  lemma WriterProjects(hash: L.Hash, body: L.Bytes, s: U.Shared, l: L.World, i: nat, phase: U.CompletePhase, luck: U.Luck)
    requires SameFiles(hash, l.files, s) && WriterFits(body, l, i, phase) && phase in {U.Publishing, U.Describing}
    requires luck.fault ==> phase == U.Describing && luck.effect
    ensures
      var (s', phase') := U.StoreStep(s, phase, ObjectOf(L.Describe(hash, body)), U.Local, luck);
      var l' := L.Run(hash, l, [L.Write(CallId(i), !luck.fault)]);
      SameFiles(hash, l'.files, s') && OthersStay(l, l', CallId(i)) && WriterFits(body, l', i, phase')
  {
    RunOne(hash, l, L.Write(CallId(i), !luck.fault));
    if phase == U.Publishing { PublishIsStep(hash, l.files, body, s, true, luck); } else { DescribeIsStep(hash, l.files, body, s, luck); }
  }

  lemma AssemblyProjects(hash: L.Hash, body: L.Bytes, l: L.World, i: nat)
    ensures
      var l' := L.Run(hash, l, [L.Crash(CallId(i)), L.NewCompleter(CallId(i), L.Describe(hash, body), body)]);
      l'.files == l.files && OthersStay(l, l', CallId(i)) && WriterFits(body, l', i, U.Publishing)
  {
    RunTwo(hash, l, L.Crash(CallId(i)), L.NewCompleter(CallId(i), L.Describe(hash, body), body));
  }

  lemma CallProjects(hash: L.Hash, body: L.Bytes, s: U.Shared, r: U.Request, l: L.World, i: nat, phase: U.CompletePhase, valid: bool, luck: U.Luck)
    requires r.store == U.Local && ObjectOf(L.Describe(hash, body)) == r.declared
    requires SameFiles(hash, l.files, s) && WriterFits(body, l, i, phase) && !phase.Checking?
    ensures
      var (s', phase') := U.CompleteStep(s, phase, r.declared, r.store, valid, luck);
      var l' := L.Run(hash, l, CallOperations(hash, body, s, r, CallId(i), phase, luck));
      SameFiles(hash, l'.files, s') && OthersStay(l, l', CallId(i)) && WriterFits(body, l', i, phase')
  {
    match phase
    case Storing => AssemblyProjects(hash, body, l, i);
    case Publishing => if !luck.fault { WriterProjects(hash, body, s, l, i, phase, luck); }
    case Describing => if luck.fault ==> luck.effect { WriterProjects(hash, body, s, l, i, phase, luck); }
    case Compensating => DeleteBegins(hash, l, CallId(i));
    case RemovingMetadata => DeleteEnds(hash, l, CallId(i));
    case _ =>
  }

  lemma StayingFits(hash: L.Hash, body: L.Bytes, w: U.World, l: L.World, l': L.World, id: nat)
    requires Projects(hash, body, w, l) && OthersStay(l, l', id)
    ensures forall i :: i in w.completers && CallId(i) != id ==> WriterFits(body, l', i, w.completers[i])
    ensures forall i :: i in w.cleaners && JobId(i) != id ==> CleanerFits(l', i)
  {
    forall i | i in w.completers && CallId(i) != id ensures WriterFits(body, l', i, w.completers[i]) {
      assert WriterFits(body, l, i, w.completers[i]);
    }
    forall i | i in w.cleaners && JobId(i) != id ensures CleanerFits(l', i) { assert CleanerFits(l, i); }
  }

  /** A call that moved on, with everybody else where they were. */
  lemma OneMoreProjects(hash: L.Hash, body: L.Bytes, w: U.World, w': U.World, l: L.World, l': L.World, i: nat)
    requires Projects(hash, body, w, l) && OthersStay(l, l', CallId(i)) && SameFiles(hash, l'.files, w'.s)
    requires i in w'.completers && w'.completers == w.completers[i := w'.completers[i]] && w'.cleaners == w.cleaners
    requires WriterFits(body, l', i, w'.completers[i])
    ensures Projects(hash, body, w', l')
  {
    StayingFits(hash, body, w, l, l', CallId(i));
  }

  lemma CompleterProjects(hash: L.Hash, body: L.Bytes, w: U.World, r: U.Request, a: U.Action, l: L.World)
    requires r.store == U.Local && ObjectOf(L.Describe(hash, body)) == r.declared && Projects(hash, body, w, l)
    requires a.CompleterStep? && a.id in w.completers && !w.completers[a.id].Checking?
    ensures Projects(hash, body, U.Step(w, r, a), L.Run(hash, l, Operations(hash, body, w, r, a)))
  {
    assert WriterFits(body, l, a.id, w.completers[a.id]);
    CallProjects(hash, body, w.s, r, l, a.id, w.completers[a.id], a.valid, a.luck);
    OneMoreProjects(hash, body, w, U.Step(w, r, a), l, L.Run(hash, l, Operations(hash, body, w, r, a)), a.id);
  }

  lemma RemovalProjects(hash: L.Hash, body: L.Bytes, w: U.World, r: U.Request, a: U.Action, l: L.World)
    requires r.store == U.Local && Projects(hash, body, w, l) && a.RemoveObject?
    ensures Projects(hash, body, U.Step(w, r, a), L.Run(hash, l, Operations(hash, body, w, r, a)))
  {
    if w.s.asset in {U.Deleting, U.AssetFailed} {
      DeleteBegins(hash, l, JobId(a.id));
      StayingFits(hash, body, w, l, L.Run(hash, l, Operations(hash, body, w, r, a)), JobId(a.id));
    }
  }

  lemma DescriptionProjects(hash: L.Hash, body: L.Bytes, w: U.World, r: U.Request, a: U.Action, l: L.World)
    requires r.store == U.Local && Projects(hash, body, w, l) && a.RemoveDescription?
    ensures Projects(hash, body, U.Step(w, r, a), L.Run(hash, l, Operations(hash, body, w, r, a)))
  {
    if a.id in w.cleaners {
      assert CleanerFits(l, a.id);
      DeleteEnds(hash, l, JobId(a.id));
      StayingFits(hash, body, w, l, L.Run(hash, l, Operations(hash, body, w, r, a)), JobId(a.id));
    }
  }

  lemma StepProjects(hash: L.Hash, body: L.Bytes, w: U.World, r: U.Request, a: U.Action, l: L.World)
    requires U.Inv(w, r) && r.store == U.Local && ObjectOf(L.Describe(hash, body)) == r.declared && Projects(hash, body, w, l)
    ensures Projects(hash, body, U.Step(w, r, a), L.Run(hash, l, Operations(hash, body, w, r, a)))
  {
    if a.CompleterStep? {
      if a.id in w.completers {
        assert U.CompleterOk(w.s, r, w.completers[a.id]);
        CompleterProjects(hash, body, w, r, a, l);
      }
    } else if a.RemoveObject? {
      RemovalProjects(hash, body, w, r, a, l);
    } else if a.RemoveDescription? {
      DescriptionProjects(hash, body, w, r, a, l);
    }
  }

  /** The file operations of a run, in order. */
  function AllOperations(hash: L.Hash, body: L.Bytes, w: U.World, r: U.Request, actions: seq<U.Action>): seq<L.Action>
    decreases |actions|
  {
    if actions == [] then []
    else Operations(hash, body, w, r, actions[0]) + AllOperations(hash, body, U.Step(w, r, actions[0]), r, actions[1..])
  }

  lemma {:induction false} AllAgree(hash: L.Hash, body: L.Bytes, w: U.World, r: U.Request, actions: seq<U.Action>)
    ensures L.Agreed(AllOperations(hash, body, w, r, actions), L.Describe(hash, body))
    decreases |actions|
  {
    if actions != [] { AllAgree(hash, body, U.Step(w, r, actions[0]), r, actions[1..]); }
  }

  lemma {:induction false} RunProjects(hash: L.Hash, body: L.Bytes, w: U.World, r: U.Request, actions: seq<U.Action>, l: L.World)
    requires U.Inv(w, r) && r.store == U.Local && ObjectOf(L.Describe(hash, body)) == r.declared && Projects(hash, body, w, l)
    ensures Projects(hash, body, U.Run(w, r, actions), L.Run(hash, l, AllOperations(hash, body, w, r, actions)))
    decreases |actions|
  {
    if actions != [] {
      var first, w' := Operations(hash, body, w, r, actions[0]), U.Step(w, r, actions[0]);
      StepProjects(hash, body, w, r, actions[0], l);
      U.StepKeeps(w, r, actions[0]);
      RunProjects(hash, body, w', r, actions[1..], L.Run(hash, l, first));
      L.RunAppend(hash, l, first, AllOperations(hash, body, w', r, actions[1..]));
    }
  }

  /** Every run of an upload is, in its two files, a run of the local store in which all writers
      declare the same object: whoever completes, aborts, crashes, compensates or cleans up.  So
      what the store reports is always the object that is there. */
  lemma UploadRunIsStoreRun(hash: L.Hash, body: L.Bytes, now: int, expiresAt: int, r: U.Request, actions: seq<U.Action>)
    requires r.store == U.Local && ObjectOf(L.Describe(hash, body)) == r.declared
    ensures
      var w, operations := U.Run(U.Created(now, expiresAt), r, actions), AllOperations(hash, body, U.Created(now, expiresAt), r, actions);
      && L.Agreed(operations, L.Describe(hash, body))
      && SameFiles(hash, L.Run(hash, L.EMPTY, operations).files, w.s)
      && (U.Reported(w.s).Some? ==> U.Reported(w.s) == w.s.file)
  {
    var operations := AllOperations(hash, body, U.Created(now, expiresAt), r, actions);
    var files := L.Run(hash, L.EMPTY, operations).files;
    RunProjects(hash, body, U.Created(now, expiresAt), r, actions, L.EMPTY);
    AllAgree(hash, body, U.Created(now, expiresAt), r, actions);
    L.StatIsTruthfulUnderDelete(hash, L.EMPTY, L.Describe(hash, body), operations);
    SameReport(hash, files, U.Run(U.Created(now, expiresAt), r, actions).s);
  }
}

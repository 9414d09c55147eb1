/** Composing the canonical interview transcript from the stored timeline
    (`internal/recording/interview_timeline.go`). */
module Timeline {
  import opened Prelude
  import opened Text

  datatype TurnStatus = Pending | TurnQueued | TurnReady | TurnFailed

  datatype InterviewTurn = InterviewTurn(
    sequence: nat, question: string, skipped: bool, status: TurnStatus, provisional: Option<string>, finalText: Option<string>)

  datatype DialogueTurn = DialogueTurn(sequence: nat, question: string, answer: string)

  datatype Composed = Composed(text: string, answers: map<nat, string>, dialogue: seq<DialogueTurn>)

  datatype ComposeError =
    | NoTurns
    | MissingTurn(sequence: nat)
    | TurnNotReady(sequence: nat)
    | NoText(sequence: nat)
    | EmptyAnswer(sequence: nat)
    | AnswerTooLong(sequence: nat)
    | NoQuestion(sequence: nat)
    | NoAnswers
    | TranscriptTooLong

  function Source(turn: InterviewTurn): Option<string> {
    if turn.finalText.Some? then turn.finalText else turn.provisional
  }

  /** The answer as it enters the transcript. */
  function Answer(turn: InterviewTurn): string {
    match Source(turn) case None => "" case Some(text) => Collapse(text)
  }

  function Spoken(turn: InterviewTurn): DialogueTurn { DialogueTurn(turn.sequence, TrimSpace(turn.question), Answer(turn)) }

  /** The first objection the loop raises against a turn at this position. */
  function Objection(turn: InterviewTurn, position: nat): Option<ComposeError> {
    if turn.sequence != position then Some(MissingTurn(position))
    else if turn.skipped then None
    else if turn.status != TurnReady then Some(TurnNotReady(position))
    else if Source(turn).None? then Some(NoText(position))
    else if Answer(turn) == "" then Some(EmptyAnswer(position))
    else if |Answer(turn)| > TRANSCRIPT_LIMIT then Some(AnswerTooLong(position))
    else if TrimSpace(turn.question) == "" then Some(NoQuestion(position))
    else None
  }

  function FirstObjection(turns: seq<InterviewTurn>, from: nat): Option<ComposeError>
    requires from <= |turns|
    decreases |turns| - from
  {
    if from == |turns| then None
    else if Objection(turns[from], from + 1).Some? then Objection(turns[from], from + 1)
    else FirstObjection(turns, from + 1)
  }

  function Dialogue(turns: seq<InterviewTurn>): seq<DialogueTurn> {
    if turns == [] then []
    else Dialogue(turns[..|turns| - 1]) + if turns[|turns| - 1].skipped then [] else [Spoken(turns[|turns| - 1])]
  }

  function Answers(dialogue: seq<DialogueTurn>): (answers: seq<string>)
    ensures |answers| == |dialogue| && forall i :: 0 <= i < |dialogue| ==> answers[i] == dialogue[i].answer
  {
    if dialogue == [] then [] else Answers(dialogue[..|dialogue| - 1]) + [dialogue[|dialogue| - 1].answer]
  }

  function AnswerMap(dialogue: seq<DialogueTurn>): map<nat, string> {
    if dialogue == [] then map[]
    else AnswerMap(dialogue[..|dialogue| - 1])[dialogue[|dialogue| - 1].sequence := dialogue[|dialogue| - 1].answer]
  }

  function Composition(turns: seq<InterviewTurn>): Result<Composed, ComposeError> {
    if turns == [] then Err(NoTurns)
    else
      match FirstObjection(turns, 0)
      case Some(e) => Err(e)
      case None =>
        var dialogue := Dialogue(turns);
        var joined := Join(Answers(dialogue));
        if dialogue == [] then Err(NoAnswers)
        else if NormalizeTranscript(joined) == "" || NormalizeTranscript(joined) != joined then Err(TranscriptTooLong)
        else Ok(Composed(joined, AnswerMap(dialogue), dialogue))
  }

  lemma DialogueNext(turns: seq<InterviewTurn>, i: nat)
    requires i < |turns|
    ensures Dialogue(turns[..i + 1]) == Dialogue(turns[..i]) + if turns[i].skipped then [] else [Spoken(turns[i])]
  {
    assert turns[..i + 1][..i] == turns[..i];
  }

  lemma AnswersNext(dialogue: seq<DialogueTurn>, entry: DialogueTurn)
    ensures AnswerMap(dialogue + [entry]) == AnswerMap(dialogue)[entry.sequence := entry.answer]
    ensures Answers(dialogue + [entry]) == Answers(dialogue) + [entry.answer]
  {
    assert (dialogue + [entry])[..|dialogue|] == dialogue;
  }

  method ComposeInterviewTranscript(turns: seq<InterviewTurn>) returns (composed: Result<Composed, ComposeError>)
    ensures composed == Composition(turns)
  {
    if |turns| == 0 {
      return Err(NoTurns);
    }
    var answers: map<nat, string>, dialogue: seq<DialogueTurn>, parts: seq<string> := map[], [], [];
    for index := 0 to |turns|
      invariant FirstObjection(turns, 0) == FirstObjection(turns, index)
      invariant dialogue == Dialogue(turns[..index]) && answers == AnswerMap(dialogue) && parts == Answers(dialogue)
    {
      var turn := turns[index];
      DialogueNext(turns, index);
      AnswersNext(dialogue, Spoken(turn));
      var spoken := ReadTurn(turn, index + 1);
      if spoken.Err? {
        return Err(spoken.error);
      }
      if spoken.value.None? {
        continue;
      }
      answers := answers[turn.sequence := spoken.value.value.answer];
      parts := parts + [spoken.value.value.answer];
      dialogue := dialogue + [spoken.value.value];
    }
    assert turns[..|turns|] == turns;
    if |parts| == 0 {
      return Err(NoAnswers);
    }
    var joined := Join(parts);
    var text := NormalizeTranscript(joined);
    if text == "" || text != joined {
      return Err(TranscriptTooLong);
    }
    return Ok(Composed(text, answers, dialogue));
  }

  /** The checks of the loop's body; a skipped turn contributes nothing. */
  method ReadTurn(turn: InterviewTurn, position: nat) returns (spoken: Result<Option<DialogueTurn>, ComposeError>)
    ensures spoken == if Objection(turn, position).Some? then Err(Objection(turn, position).value)
                      else Ok(if turn.skipped then None else Some(Spoken(turn)))
  {
    if turn.sequence != position {
      return Err(MissingTurn(position));
    }
    if turn.skipped {
      return Ok(None);
    }
    if turn.status != TurnReady {
      return Err(TurnNotReady(turn.sequence));
    }
    var source := if turn.finalText.Some? then turn.finalText else turn.provisional;
    if source.None? {
      return Err(NoText(turn.sequence));
    }
    var rawAnswer := Join(Fields(TrimSpace(source.value)));
    CollapseIdempotent(source.value);
    var answer := NormalizeTranscript(rawAnswer);
    if answer == "" {
      return Err(EmptyAnswer(turn.sequence));
    }
    if answer != rawAnswer {
      return Err(AnswerTooLong(turn.sequence));
    }
    var question := TrimSpace(turn.question);
    if question == "" {
      return Err(NoQuestion(turn.sequence));
    }
    return Ok(Some(DialogueTurn(turn.sequence, question, answer)));
  }

  // ---- When composing succeeds --------------------------------------------------------

  predicate UsableTurn(turn: InterviewTurn, position: nat) {
    && turn.sequence == position
    && (turn.skipped ||
        (turn.status == TurnReady && Source(turn).Some? && !Blank(Source(turn).value)
         && |Answer(turn)| <= TRANSCRIPT_LIMIT && !Blank(turn.question)))
  }

  predicate Usable(turns: seq<InterviewTurn>) {
    && (forall i :: 0 <= i < |turns| ==> UsableTurn(turns[i], i + 1))
    && (exists i :: 0 <= i < |turns| && !turns[i].skipped)
    && |Join(Answers(Dialogue(turns)))| <= TRANSCRIPT_LIMIT
  }

  lemma ObjectionIffUnusable(turn: InterviewTurn, position: nat)
    ensures Objection(turn, position).None? <==> UsableTurn(turn, position)
  {
    TrimBlank(turn.question);
    if Source(turn).Some? {
      CollapseIsFields(Source(turn).value);
      FieldsBlank(Source(turn).value);
      if Fields(Source(turn).value) != [] { assert IsWord(Fields(Source(turn).value)[0]); }
    }
  }

  lemma {:induction false} NoObjectionIff(turns: seq<InterviewTurn>, from: nat)
    requires from <= |turns|
    ensures FirstObjection(turns, from).None? <==> forall i :: from <= i < |turns| ==> UsableTurn(turns[i], i + 1)
    decreases |turns| - from
  {
    if from < |turns| {
      ObjectionIffUnusable(turns[from], from + 1);
      NoObjectionIff(turns, from + 1);
      assert FirstObjection(turns, from).None? <==> UsableTurn(turns[from], from + 1) && FirstObjection(turns, from + 1).None?;
    }
  }

  lemma {:induction false} DialogueIsCollapsed(turns: seq<InterviewTurn>)
    requires forall i :: 0 <= i < |turns| ==> UsableTurn(turns[i], i + 1)
    ensures forall i :: 0 <= i < |Dialogue(turns)| ==> Collapsed(Dialogue(turns)[i].answer)
    ensures Dialogue(turns) == [] <==> forall i :: 0 <= i < |turns| ==> turns[i].skipped
  {
    if turns != [] {
      var init, last := turns[..|turns| - 1], turns[|turns| - 1];
      forall i | 0 <= i < |init| ensures init[i] == turns[i] && UsableTurn(init[i], i + 1) {}
      DialogueIsCollapsed(init);
      if !last.skipped { AnswerIsCollapsed(last, |turns|); }
      assert forall k :: 0 <= k < |Dialogue(turns)| ==> k < |Dialogue(init)| || Dialogue(turns)[k] == Spoken(last);
    }
  }

  lemma AnswerIsCollapsed(turn: InterviewTurn, position: nat)
    requires UsableTurn(turn, position) && !turn.skipped
    ensures Collapsed(Answer(turn))
  {
    CollapseIdempotent(Source(turn).value);
    ObjectionIffUnusable(turn, position);
  }

  /** Composing succeeds exactly for a contiguous timeline whose answered turns are ready,
      not blank and short enough; the text is then already in normal form, so normalising or
      comparing it again later cannot disturb it. */
  lemma ComposeSucceedsIff(turns: seq<InterviewTurn>)
    ensures Composition(turns).Ok? <==> Usable(turns)
    ensures Composition(turns).Ok? ==> NormalizeTranscript(Composition(turns).value.text) == Composition(turns).value.text
  {
    NoObjectionIff(turns, 0);
    if forall i :: 0 <= i < |turns| ==> UsableTurn(turns[i], i + 1) {
      DialogueIsCollapsed(turns);
      if Dialogue(turns) != [] { JoinIsCollapsed(Answers(Dialogue(turns))); }
    }
  }

  // ---- What an objection means --------------------------------------------------------

  /** What is wrong with the turn that the objection names. */
  predicate Blames(turns: seq<InterviewTurn>, e: ComposeError) {
    match e
    case NoTurns => turns == []
    case MissingTurn(n) => 1 <= n <= |turns| && turns[n - 1].sequence != n
    case TurnNotReady(n) => Answered(turns, n) && turns[n - 1].status != TurnReady
    case NoText(n) => Answered(turns, n) && turns[n - 1].finalText.None? && turns[n - 1].provisional.None?
    case EmptyAnswer(n) => Answered(turns, n) && Source(turns[n - 1]).Some? && Blank(Source(turns[n - 1]).value)
    case AnswerTooLong(n) => Answered(turns, n) && Source(turns[n - 1]).Some? && |Join(Fields(Source(turns[n - 1]).value))| > 20000
    case NoQuestion(n) => Answered(turns, n) && Blank(turns[n - 1].question)
    case NoAnswers => turns != [] && forall i :: 0 <= i < |turns| ==> turns[i].skipped
    case TranscriptTooLong => |Join(Answers(Dialogue(turns)))| > 20000
  }

  predicate Answered(turns: seq<InterviewTurn>, n: nat) {
    1 <= n <= |turns| && turns[n - 1].sequence == n && !turns[n - 1].skipped
  }

  lemma ObjectionBlames(turns: seq<InterviewTurn>, n: nat)
    requires 1 <= n <= |turns| && Objection(turns[n - 1], n).Some?
    ensures Blames(turns, Objection(turns[n - 1], n).value)
  {
    var turn := turns[n - 1];
    TrimBlank(turn.question);
    if Source(turn).Some? {
      CollapseIsFields(Source(turn).value);
      FieldsBlank(Source(turn).value);
      if Fields(Source(turn).value) != [] { assert IsWord(Fields(Source(turn).value)[0]); }
    }
  }

  lemma {:induction false} FirstObjectionIs(turns: seq<InterviewTurn>, from: nat) returns (n: nat)
    requires from <= |turns| && FirstObjection(turns, from).Some?
    ensures from < n <= |turns| && Objection(turns[n - 1], n) == FirstObjection(turns, from)
    decreases |turns| - from
  {
    n := from + 1;
    if Objection(turns[from], from + 1).None? { n := FirstObjectionIs(turns, from + 1); }
  }

  /** The error of the composer names a turn that has the fault it names. */
  lemma ErrorBlames(turns: seq<InterviewTurn>)
    requires Composition(turns).Err?
    ensures Blames(turns, Composition(turns).error)
  {
    if turns != [] {
      if FirstObjection(turns, 0).Some? {
        var n := FirstObjectionIs(turns, 0);
        ObjectionBlames(turns, n);
      } else {
        NoObjectionIff(turns, 0);
        DialogueIsCollapsed(turns);
        if Dialogue(turns) != [] {
          JoinIsCollapsed(Answers(Dialogue(turns)));
          assert |Join(Answers(Dialogue(turns)))| > TRANSCRIPT_LIMIT;
        }
      }
    }
  }

  // ---- What the dialogue says ---------------------------------------------------------

  /** An entry shows the question of its turn, trimmed, and its final text, or the provisional one
      where there is no final text, as single words. */
  predicate Shows(turn: InterviewTurn, entry: DialogueTurn) {
    && !turn.skipped && entry.question == TrimSpace(turn.question)
    && (turn.finalText.Some? ==> entry.answer == Join(Fields(turn.finalText.value)))
    && (turn.finalText.None? && turn.provisional.Some? ==> entry.answer == Join(Fields(turn.provisional.value)))
  }

  predicate InOrder(dialogue: seq<DialogueTurn>) {
    forall j, k :: 0 <= j < k < |dialogue| ==> dialogue[j].sequence < dialogue[k].sequence
  }

  predicate Told(dialogue: seq<DialogueTurn>, n: nat) { exists k :: 0 <= k < |dialogue| && dialogue[k].sequence == n }

  predicate Truthful(turns: seq<InterviewTurn>, dialogue: seq<DialogueTurn>) {
    forall k :: 0 <= k < |dialogue| ==> 1 <= dialogue[k].sequence <= |turns| && Shows(turns[dialogue[k].sequence - 1], dialogue[k])
  }

  /** The entries show the answered turns, each once and in the order of the turns. */
  predicate Tells(turns: seq<InterviewTurn>, dialogue: seq<DialogueTurn>) {
    && Truthful(turns, dialogue) && InOrder(dialogue)
    && forall n :: 1 <= n <= |turns| && !turns[n - 1].skipped ==> Told(dialogue, n)
  }

  lemma TruthfulSnoc(turns: seq<InterviewTurn>, told: seq<DialogueTurn>, entry: DialogueTurn)
    requires turns != [] && Truthful(turns[..|turns| - 1], told)
    requires entry.sequence == |turns| && Shows(turns[|turns| - 1], entry)
    ensures Truthful(turns, told) && Truthful(turns, told + [entry])
    ensures InOrder(told) ==> InOrder(told + [entry])
  {
    forall k | 0 <= k < |told| ensures 1 <= told[k].sequence <= |turns| - 1 && Shows(turns[told[k].sequence - 1], told[k]) {
      assert turns[..|turns| - 1][told[k].sequence - 1] == turns[told[k].sequence - 1];
    }
  }

  lemma ToldSnoc(told: seq<DialogueTurn>, entry: DialogueTurn, n: nat)
    requires entry.sequence == n || Told(told, n)
    ensures Told(told + [entry], n)
  {
    if entry.sequence == n {
      assert (told + [entry])[|told|] == entry;
    } else {
      var k :| 0 <= k < |told| && told[k].sequence == n;
      assert (told + [entry])[k] == told[k];
    }
  }

  lemma TellsMore(turns: seq<InterviewTurn>, told: seq<DialogueTurn>, entry: DialogueTurn)
    requires turns != [] && Tells(turns[..|turns| - 1], told)
    requires entry.sequence == |turns| && Shows(turns[|turns| - 1], entry)
    ensures Tells(turns, told + [entry])
  {
    TruthfulSnoc(turns, told, entry);
    forall n | 1 <= n <= |turns| && !turns[n - 1].skipped ensures Told(told + [entry], n) {
      if n < |turns| { assert turns[..|turns| - 1][n - 1] == turns[n - 1]; }
      ToldSnoc(told, entry, n);
    }
  }

  lemma TellsNoMore(turns: seq<InterviewTurn>, told: seq<DialogueTurn>)
    requires turns != [] && Tells(turns[..|turns| - 1], told) && turns[|turns| - 1].skipped
    ensures Tells(turns, told)
  {
    forall k | 0 <= k < |told| ensures 1 <= told[k].sequence <= |turns| && Shows(turns[told[k].sequence - 1], told[k]) {
      assert turns[..|turns| - 1][told[k].sequence - 1] == turns[told[k].sequence - 1];
    }
    forall n | 1 <= n <= |turns| && !turns[n - 1].skipped ensures Told(told, n) {
      assert turns[..|turns| - 1][n - 1] == turns[n - 1];
    }
  }

  lemma SpokenShows(turn: InterviewTurn)
    requires !turn.skipped
    ensures Shows(turn, Spoken(turn)) && Spoken(turn).sequence == turn.sequence
  {
    if Source(turn).Some? { CollapseIsFields(Source(turn).value); }
  }

  lemma {:induction false} DialogueTells(turns: seq<InterviewTurn>)
    requires forall i :: 0 <= i < |turns| ==> turns[i].sequence == i + 1
    ensures Tells(turns, Dialogue(turns))
  {
    if turns != [] {
      var init, last := turns[..|turns| - 1], turns[|turns| - 1];
      DialogueTells(init);
      if last.skipped {
        TellsNoMore(turns, Dialogue(init));
        assert Dialogue(turns) == Dialogue(init);
      } else {
        SpokenShows(last);
        TellsMore(turns, Dialogue(init), Spoken(last));
      }
    }
  }

  /** Each answer is kept under the number of its turn. */
  lemma {:induction false} MapHolds(dialogue: seq<DialogueTurn>, k: nat)
    requires InOrder(dialogue) && k < |dialogue|
    ensures dialogue[k].sequence in AnswerMap(dialogue) && AnswerMap(dialogue)[dialogue[k].sequence] == dialogue[k].answer
  {
    if k < |dialogue| - 1 { MapHolds(dialogue[..|dialogue| - 1], k); }
  }

  /** What a composed interview says: its dialogue shows the answered turns in order, its text is
      their answers joined with spaces, and its map holds each answer under the number of its turn. */
  lemma ComposedTells(turns: seq<InterviewTurn>)
    requires Composition(turns).Ok?
    ensures
      var composed := Composition(turns).value;
      && Tells(turns, composed.dialogue) && composed.text == Join(Answers(composed.dialogue))
      && forall k :: 0 <= k < |composed.dialogue| ==>
        composed.dialogue[k].sequence in composed.answers && composed.answers[composed.dialogue[k].sequence] == composed.dialogue[k].answer
  {
    NoObjectionIff(turns, 0);
    DialogueTells(turns);
    var dialogue := Dialogue(turns);
    forall k | 0 <= k < |dialogue|
      ensures dialogue[k].sequence in AnswerMap(dialogue) && AnswerMap(dialogue)[dialogue[k].sequence] == dialogue[k].answer
    {
      MapHolds(dialogue, k);
    }
  }

  // ---- Composing again ----------------------------------------------------------------

  /** Two stored turns that enter the transcript in the same way. */
  predicate SameAnswer(a: InterviewTurn, b: InterviewTurn) {
    && a.sequence == b.sequence && a.question == b.question && a.skipped == b.skipped
    && (!a.skipped ==> a.status == b.status && Source(a).Some? == Source(b).Some? && Answer(a) == Answer(b))
  }

  lemma {:induction false} SameDialogue(a: seq<InterviewTurn>, b: seq<InterviewTurn>)
    requires |a| == |b| && forall i :: 0 <= i < |a| ==> SameAnswer(a[i], b[i])
    ensures Dialogue(a) == Dialogue(b)
  {
    if a != [] {
      SameDialogue(a[..|a| - 1], b[..|b| - 1]);
    }
  }

  lemma {:induction false} SameObjection(a: seq<InterviewTurn>, b: seq<InterviewTurn>, from: nat)
    requires |a| == |b| && (forall i :: 0 <= i < |a| ==> SameAnswer(a[i], b[i])) && from <= |a|
    ensures FirstObjection(a, from) == FirstObjection(b, from)
    decreases |a| - from
  {
    if from < |a| { SameObjection(a, b, from + 1); }
  }

  lemma SameComposition(a: seq<InterviewTurn>, b: seq<InterviewTurn>)
    requires |a| == |b| && forall i :: 0 <= i < |a| ==> SameAnswer(a[i], b[i])
    ensures Composition(a) == Composition(b)
  {
    SameDialogue(a, b);
    SameObjection(a, b, 0);
  }

  lemma AnswerMapSnoc(turns: seq<InterviewTurn>)
    requires turns != []
    ensures
      var init, last := turns[..|turns| - 1], turns[|turns| - 1];
      AnswerMap(Dialogue(turns)) ==
        if last.skipped then AnswerMap(Dialogue(init)) else AnswerMap(Dialogue(init))[last.sequence := Answer(last)]
  {
    var init, last := turns[..|turns| - 1], turns[|turns| - 1];
    if last.skipped {
      assert Dialogue(turns) == Dialogue(init);
    } else {
      assert Dialogue(turns)[..|Dialogue(turns)| - 1] == Dialogue(init);
    }
  }

  predicate HasAnswers(turns: seq<InterviewTurn>, answers: map<nat, string>) {
    && (forall n :: n in answers ==> 1 <= n <= |turns| && !turns[n - 1].skipped && answers[n] == Answer(turns[n - 1]))
    && (forall i :: 0 <= i < |turns| && !turns[i].skipped ==> i + 1 in answers)
  }

  /** The answer map holds exactly the answered turns, under their sequence numbers. */
  lemma {:induction false} AnswerMapIs(turns: seq<InterviewTurn>)
    requires forall i :: 0 <= i < |turns| ==> turns[i].sequence == i + 1
    ensures HasAnswers(turns, AnswerMap(Dialogue(turns)))
  {
    if turns != [] {
      var init, last := turns[..|turns| - 1], turns[|turns| - 1];
      AnswerMapIs(init);
      AnswerMapSnoc(turns);
      HasAnswersSnoc(turns, AnswerMap(Dialogue(init)));
    }
  }

  lemma HasAnswersSnoc(turns: seq<InterviewTurn>, answers: map<nat, string>)
    requires turns != [] && turns[|turns| - 1].sequence == |turns| && HasAnswers(turns[..|turns| - 1], answers)
    ensures
      var last := turns[|turns| - 1];
      HasAnswers(turns, if last.skipped then answers else answers[last.sequence := Answer(last)])
  {
  }
}

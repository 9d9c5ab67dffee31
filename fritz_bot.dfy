/**
 * The quiz engine of src/lib/fritz-bot.ts.
 *
 * The first half gives the engine's behaviour as pure functions over a
 * snapshot of its state (BotState): one function per step, and lemmas
 * stating what the steps promise. The second half is the class FritzBot,
 * whose methods change its fields step by step as the source does and are
 * proved to follow those functions.
 *
 * The session table is the field `store` (a map from chat id to record),
 * the chat transport is the append-only `outbox`, and the two sheets are
 * the parsed rows given to the constructor.
 */
module FritzBotModel {
  import opened Wrappers
  import opened Vocabulary
  import opened SessionRecord
  import WordsStore
  import Utils

  // ---------------------------------------------------------------------
  // Constants. The source refers to ExerciseTypes, ReviewAnswers and most
  // TelegramActions without defining them; they are distinct values here,
  // with labels chosen for the model.
  // ---------------------------------------------------------------------

  datatype ExerciseType = Review | Practice

  function ExerciseLabel(t: ExerciseType): string {
    match t
    case Review => "Review"
    case Practice => "Practice"
  }

  datatype ReviewAnswer = ReviewLater | Ok

  function ReviewLabel(a: ReviewAnswer): string {
    match a
    case ReviewLater => "Review later"
    case Ok => "Ok"
  }

  /** The action tag a button carries; anything else is `Unrecognised`. */
  datatype Action =
    | SelectTopic
    | SelectSpeechPart
    | SelectExerciseType
    | SelectReviewAnswer
    | SelectPracticeAnswer
    | Unrecognised(name: string)

  /** The texts the engine sends, as tokens. */
  datatype Text =
    | Hello(name: string)
    | NoTopics
    | TopicPrompt
    | SpeechPartPrompt
    | ExercisePrompt
    | PracticeQuestion(german: string)
    | ReviewQuestion(german: string, english: string)
    | CongratsPracticed
    | CongratsReviewed
    | CorrectAck
    | IncorrectAck
    | ReviewOkAck
    | ReviewLaterAck

  /** `sendMessage` and `sendMessageWithButtons` requests, in the order sent. */
  datatype Outgoing =
    | Message(chatId: int, text: Text)
    | Buttons(chatId: int, text: Text, items: seq<string>, action: Action, shuffle: bool)

  // ---------------------------------------------------------------------
  // Inbound events
  // ---------------------------------------------------------------------

  datatype Sender = Sender(firstName: string, username: string)

  /**
   * A message; `hasEntity` says whether `entities[0]` exists. Any entity
   * counts (a command, a URL, a mention, bold text), not only a command.
   */
  datatype InMessage = InMessage(chatId: int, sender: Sender, hasEntity: bool)

  /** The parsed `callback_query.data`. */
  datatype CallbackData = CallbackData(action: Action, item: string)

  datatype CallbackQuery = CallbackQuery(chatId: int, data: CallbackData)

  datatype Event = Event(message: Option<InMessage>, callback: Option<CallbackQuery>)

  /** How an invocation ends: normally, or with the error it throws. */
  datatype Failure = MissingSession | WordsNotLoaded | NoChatId
  datatype Outcome = Done | Failed(failure: Failure)

  /** The parsed rows of the topics sheet and of the words sheet. */
  datatype Sheets = Sheets(topics: seq<TopicRow>, words: seq<WordsStore.WordRow>)

  /** Every field of the engine that an event can change. */
  datatype BotState = BotState(
    chatId: int,
    topic: string,
    exerciseType: string,
    speechPart: string,
    allWords: Option<seq<Word>>,
    wordsToPractice: seq<Word>,
    session: Option<Session>,
    store: map<int, Session>,
    outbox: seq<Outgoing>)

  datatype StepResult = StepResult(state: BotState, outcome: Outcome)

  // ---------------------------------------------------------------------
  // Word lists
  // ---------------------------------------------------------------------

  /** `words.filter(word => word.status === ToPractice)`. */
  function Eligible(ws: seq<Word>): (r: seq<Word>)
    ensures |r| <= |ws|
    ensures forall w :: w in r <==> w in ws && w.status == ToPractice
  {
    if ws == [] then []
    else (if ws[0].status == ToPractice then [ws[0]] else []) + Eligible(ws[1..])
  }

  /** The filter keeps the order of the list it filters. */
  lemma {:induction false} EligibleConcat(a: seq<Word>, b: seq<Word>)
    ensures Eligible(a + b) == Eligible(a) + Eligible(b)
  {
    if a != [] {
      assert (a + b)[1..] == a[1..] + b;
      EligibleConcat(a[1..], b);
    } else {
      assert a + b == b;
    }
  }

  lemma {:induction false} AllToPracticeEligible(ws: seq<Word>)
    requires forall i :: 0 <= i < |ws| ==> ws[i].status == ToPractice
    ensures Eligible(ws) == ws
  {
    if ws != [] {
      AllToPracticeEligible(ws[1..]);
    }
  }

  /** The sheet words as the engine keeps them (the other columns are not read). */
  function FromSheet(ws: seq<WordsStore.SheetWord>): (r: seq<Word>)
    ensures |r| == |ws|
    ensures forall i :: 0 <= i < |ws| ==> r[i] == Word(ws[i].german, ws[i].english, ws[i].status)
  {
    if ws == [] then [] else [Word(ws[0].german, ws[0].english, ws[0].status)] + FromSheet(ws[1..])
  }

  /** `getWords(this.topic, this.speechPart)`: the speech part is not passed on. */
  function SheetWords(sheets: Sheets, topic: string): seq<Word> {
    FromSheet(WordsStore.GetWords(sheets.words, topic))
  }

  /** Words fresh from the sheet are all still to practise. */
  lemma SheetWordsAllEligible(sheets: Sheets, topic: string)
    ensures Eligible(SheetWords(sheets, topic)) == SheetWords(sheets, topic)
  {
    var sw := WordsStore.GetWords(sheets.words, topic);
    var ws := SheetWords(sheets, topic);
    forall i | 0 <= i < |ws|
      ensures ws[i].status == ToPractice
    {
      assert sw[i] in sw;
    }
    AllToPracticeEligible(ws);
  }

  /**
   * `session?.words ? session.words : googleSheetWords`. A stored record
   * always has a `words` list, and an empty JavaScript array is truthy, so a
   * stored record wins even when its list is empty.
   */
  function AllWordsFor(store: map<int, Session>, chatId: int, sheetWords: seq<Word>): seq<Word> {
    if chatId in store then store[chatId].words else sheetWords
  }

  // ---------------------------------------------------------------------
  // Answer options
  // ---------------------------------------------------------------------

  /** `allWords.filter(word => word.german !== german)`. */
  function Distractors(all: seq<Word>, german: string): (r: seq<Word>)
    ensures |r| <= |all|
    ensures forall w :: w in r <==> w in all && w.german != german
  {
    if all == [] then []
    else (if all[0].german != german then [all[0]] else []) + Distractors(all[1..], german)
  }

  /** The filter keeps list order, so `.slice(0, 3)` takes the first distractors of `allWords`. */
  lemma {:induction false} DistractorsConcat(a: seq<Word>, b: seq<Word>, german: string)
    ensures Distractors(a + b, german) == Distractors(a, german) + Distractors(b, german)
  {
    if a != [] {
      assert (a + b)[1..] == a[1..] + b;
      DistractorsConcat(a[1..], b, german);
    } else {
      assert a + b == b;
    }
  }

  function Englishes(ws: seq<Word>): (r: seq<string>)
    ensures |r| == |ws|
    ensures forall i :: 0 <= i < |ws| ==> r[i] == ws[i].english
  {
    if ws == [] then [] else [ws[0].english] + Englishes(ws[1..])
  }

  /**
   * The options of a practice question: the word's own `english` first,
   * then the `english` of the first three (or fewer) words whose `german`
   * differs from the word's.
   */
  function PracticeOptions(all: seq<Word>, w: Word): (items: seq<string>)
    ensures 1 <= |items| <= 4
    ensures items[0] == w.english
    ensures |items| == 1 + Utils.Min(3, |Distractors(all, w.german)|)
    ensures forall k :: 1 <= k < |items| ==> items[k] == Distractors(all, w.german)[k - 1].english
    ensures forall k :: 1 <= k < |items| ==>
      exists d :: d in all && d.german != w.german && d.english == items[k]
  {
    var wrong := Distractors(all, w.german);
    var first := wrong[..Utils.Min(3, |wrong|)];
    assert forall k :: 0 <= k < |first| ==> first[k] in wrong;
    [w.english] + Englishes(first)
  }

  /** The options of a review question, in this order and never shuffled. */
  function ReviewOptions(): seq<string> {
    [ReviewLabel(ReviewLater), ReviewLabel(Ok)]
  }

  function QuestionItems(kind: ExerciseType, all: seq<Word>, w: Word): seq<string> {
    match kind
    case Practice => PracticeOptions(all, w)
    case Review => ReviewOptions()
  }

  function QuestionText(kind: ExerciseType, w: Word): Text {
    match kind
    case Practice => PracticeQuestion(w.german)
    case Review => ReviewQuestion(w.german, w.english)
  }

  function QuestionAction(kind: ExerciseType): Action {
    match kind
    case Practice => SelectPracticeAnswer
    case Review => SelectReviewAnswer
  }

  function Congrats(kind: ExerciseType): Text {
    match kind
    case Practice => CongratsPracticed
    case Review => CongratsReviewed
  }

  // ---------------------------------------------------------------------
  // Marking a word practised
  // ---------------------------------------------------------------------

  /** `allWords.map(...)`: every word with the given `german` becomes Practiced. */
  function MarkPracticed(ws: seq<Word>, german: string): (r: seq<Word>)
    ensures |r| == |ws|
    ensures forall i :: 0 <= i < |ws| ==>
      r[i] == if ws[i].german == german then ws[i].(status := Practiced) else ws[i]
  {
    if ws == [] then []
    else [if ws[0].german == german then ws[0].(status := Practiced) else ws[0]] + MarkPracticed(ws[1..], german)
  }

  /**
   * Marking changes nothing but statuses, only ever to Practiced, and only
   * on the words with that `german`; doing it twice is doing it once.
   */
  lemma MarkPracticedSpec(ws: seq<Word>, german: string)
    ensures MarkPracticed(MarkPracticed(ws, german), german) == MarkPracticed(ws, german)
    ensures forall i :: 0 <= i < |ws| ==>
      && MarkPracticed(ws, german)[i].german == ws[i].german
      && MarkPracticed(ws, german)[i].english == ws[i].english
      && (MarkPracticed(ws, german)[i].status == ToPractice ==> ws[i].status == ToPractice)
      && (MarkPracticed(ws, german)[i].status != ws[i].status ==> ws[i].german == german)
  {
    var once := MarkPracticed(ws, german);
    assert MarkPracticed(once, german) == once by {
      forall i | 0 <= i < |once|
        ensures MarkPracticed(once, german)[i] == once[i]
      {
      }
    }
  }

  /**
   * After marking, the eligible words are among those before, none of them
   * has the marked `german`, and when an eligible word had it the list is
   * strictly shorter: each correct answer brings the quiz closer to its end.
   */
  lemma {:induction false} MarkPracticedShrinks(ws: seq<Word>, german: string)
    ensures forall w :: w in Eligible(MarkPracticed(ws, german)) ==> w in Eligible(ws) && w.german != german
    ensures |Eligible(MarkPracticed(ws, german))| <= |Eligible(ws)|
    ensures (exists w :: w in Eligible(ws) && w.german == german) ==>
      |Eligible(MarkPracticed(ws, german))| < |Eligible(ws)|
  {
    if ws != [] {
      var x, t := ws[0], ws[1..];
      var m := if x.german == german then x.(status := Practiced) else x;
      MarkPracticedShrinks(t, german);
      assert MarkPracticed(ws, german) == [m] + MarkPracticed(t, german);
      assert ([m] + MarkPracticed(t, german))[1..] == MarkPracticed(t, german);
      assert Eligible(MarkPracticed(ws, german))
        == (if m.status == ToPractice then [m] else []) + Eligible(MarkPracticed(t, german));
      assert Eligible(ws) == (if x.status == ToPractice then [x] else []) + Eligible(t);
    }
  }

  // ---------------------------------------------------------------------
  // The steps
  // ---------------------------------------------------------------------

  /**
   * `getNextPracticeQuestion` / `getNextReviewQuestion`: read the word list,
   * and either congratulate (nothing written, no buttons) or pick the word
   * at the drawn index, write the full record and send the question.
   */
  function QuestionStep(kind: ExerciseType, sheets: Sheets, st: BotState, pick: nat): BotState {
    var all := AllWordsFor(st.store, st.chatId, SheetWords(sheets, st.topic));
    var el := Eligible(all);
    if el == [] then
      st.(allWords := Some(all), wordsToPractice := el,
          outbox := st.outbox + [Message(st.chatId, Congrats(kind))])
    else
      var w := el[pick % |el|];
      var items := QuestionItems(kind, all, w);
      st.(allWords := Some(all), wordsToPractice := el,
          store := st.store[st.chatId := Session(st.chatId, st.topic, st.speechPart, all, w, items)],
          outbox := st.outbox + [Buttons(st.chatId, QuestionText(kind, w), items, QuestionAction(kind), kind == Practice)])
  }

  /** The congratulation is sent exactly when no word is eligible, and then nothing is written. */
  lemma QuestionStepCompletion(kind: ExerciseType, sheets: Sheets, st: BotState, pick: nat)
    ensures var all := AllWordsFor(st.store, st.chatId, SheetWords(sheets, st.topic));
            var r := QuestionStep(kind, sheets, st, pick);
            && (Eligible(all) == [] <==> r.outbox == st.outbox + [Message(st.chatId, Congrats(kind))])
            && (Eligible(all) == [] ==> r.store == st.store)
  {
    var all := AllWordsFor(st.store, st.chatId, SheetWords(sheets, st.topic));
    var r := QuestionStep(kind, sheets, st, pick);
    if Eligible(all) != [] {
      assert r.outbox[|st.outbox|].Buttons?;
      assert (st.outbox + [Message(st.chatId, Congrats(kind))])[|st.outbox|].Message?;
    }
  }

  /**
   * A question step that asks fully replaces the chat's record: the words
   * read, a word that is eligible (so ToPractice), and as answers exactly
   * the items sent. Practice items hold the correct answer first and at
   * most four entries; review items are the fixed pair. Other chats'
   * records are untouched.
   */
  lemma QuestionStepRecord(kind: ExerciseType, sheets: Sheets, st: BotState, pick: nat)
    requires Eligible(AllWordsFor(st.store, st.chatId, SheetWords(sheets, st.topic))) != []
    ensures var all := AllWordsFor(st.store, st.chatId, SheetWords(sheets, st.topic));
            var r := QuestionStep(kind, sheets, st, pick);
            && st.chatId in r.store
            && r.store[st.chatId].id == st.chatId
            && r.store[st.chatId].topic == st.topic
            && r.store[st.chatId].speechPart == st.speechPart
            && r.store[st.chatId].words == all
            && r.store[st.chatId].word in Eligible(all)
            && r.store[st.chatId].word in all
            && r.store[st.chatId].word.status == ToPractice
            && r.outbox == st.outbox + [Buttons(st.chatId, QuestionText(kind, r.store[st.chatId].word),
                                                r.store[st.chatId].answers, QuestionAction(kind), kind == Practice)]
            && (kind == Practice ==>
                  1 <= |r.store[st.chatId].answers| <= 4 &&
                  r.store[st.chatId].answers[0] == r.store[st.chatId].word.english)
            && (kind == Review ==> r.store[st.chatId].answers == ReviewOptions())
            && r.store - {st.chatId} == st.store - {st.chatId}
            && r.allWords == Some(all) && r.wordsToPractice == Eligible(all)
  {
    var all := AllWordsFor(st.store, st.chatId, SheetWords(sheets, st.topic));
    var el := Eligible(all);
    assert el[pick % |el|] in el;
  }

  /**
   * The words a question is drawn from depend on the topic only: the
   * selected speech part is recorded in the session but filters nothing.
   */
  lemma SpeechPartDoesNotFilter(kind: ExerciseType, sheets: Sheets, st: BotState, pick: nat, part: string)
    ensures var r1 := QuestionStep(kind, sheets, st, pick);
            var r2 := QuestionStep(kind, sheets, st.(speechPart := part), pick);
            && r1.allWords == r2.allWords
            && r1.wordsToPractice == r2.wordsToPractice
            && r1.outbox == r2.outbox
  {
  }

  /** The reply to a restart: the topics as buttons, or "No topics found." when there are none. */
  function StartReply(chatId: int, topics: seq<string>): Outgoing {
    if |topics| == 0 then Message(chatId, NoTopics)
    else Buttons(chatId, TopicPrompt, topics, SelectTopic, false)
  }

  /** `handleCommand`: delete the chat's record, then offer the topics. */
  function CommandStep(sheets: Sheets, st: BotState): BotState {
    st.(store := st.store - {st.chatId},
        outbox := st.outbox + [StartReply(st.chatId, Topics(sheets.topics))])
  }

  /** `first_name || username`. */
  function GreetingName(sender: Sender): string {
    if sender.firstName != "" then sender.firstName else sender.username
  }

  /** `handleMessage`: a greeting, and nothing else. */
  function MessageStep(st: BotState, sender: Sender): BotState {
    st.(outbox := st.outbox + [Message(st.chatId, Hello(GreetingName(sender)))])
  }

  /**
   * `updateWordStatus`: marks the instance's `allWords` by the record's word
   * and writes the record back. `None` when `allWords` was never loaded in
   * this instance (the source then throws on `undefined.map`).
   */
  function UpdateWordStatusStep(st: BotState): Option<BotState>
    requires st.session.Some?
  {
    if st.allWords.None? then None
    else
      var s := st.session.value;
      var marked := MarkPracticed(st.allWords.value, s.word.german);
      Some(st.(allWords := Some(marked),
               store := st.store[st.chatId := Session(st.chatId, s.topic, st.speechPart, marked, s.word, s.answers)]))
  }

  function SpeechPartReply(chatId: int, parts: seq<string>): Outgoing {
    Buttons(chatId, SpeechPartPrompt, parts, SelectSpeechPart, false)
  }

  function ExerciseReply(chatId: int): Outgoing {
    Buttons(chatId, ExercisePrompt, [ExerciseLabel(Review), ExerciseLabel(Practice)], SelectExerciseType, false)
  }

  /** The `SelectReviewAnswer` case: any item other than "Review later" counts as "Ok". */
  function ReviewAnswerStep(sheets: Sheets, st: BotState, item: string, pick: nat): StepResult {
    if st.chatId !in st.store then StepResult(st.(session := None), Failed(MissingSession))
    else
      var s := st.store[st.chatId];
      var st1 := st.(session := Some(s), topic := s.topic);
      if item != ReviewLabel(ReviewLater) then
        match UpdateWordStatusStep(st1)
        case None => StepResult(st1, Failed(WordsNotLoaded))
        case Some(st2) =>
          StepResult(QuestionStep(Review, sheets, st2.(outbox := st2.outbox + [Message(st.chatId, ReviewOkAck)]), pick), Done)
      else
        StepResult(QuestionStep(Review, sheets, st1.(outbox := st1.outbox + [Message(st.chatId, ReviewLaterAck)]), pick), Done)
  }

  /** The `SelectPracticeAnswer` case: correct exactly when the item is the word's `english`. */
  function PracticeAnswerStep(sheets: Sheets, st: BotState, item: string, pick: nat): StepResult {
    if st.chatId !in st.store then StepResult(st.(session := None), Failed(MissingSession))
    else
      var s := st.store[st.chatId];
      var st1 := st.(session := Some(s), topic := s.topic);
      if item == s.word.english then
        match UpdateWordStatusStep(st1)
        case None => StepResult(st1, Failed(WordsNotLoaded))
        case Some(st2) =>
          StepResult(QuestionStep(Practice, sheets, st2.(outbox := st2.outbox + [Message(st.chatId, CorrectAck)]), pick), Done)
      else
        StepResult(QuestionStep(Practice, sheets, st1.(outbox := st1.outbox + [Message(st.chatId, IncorrectAck)]), pick), Done)
  }

  /** `handleSelectedAction`: the action switch. */
  function ActionStep(sheets: Sheets, st: BotState, data: CallbackData, pick: nat): StepResult {
    match data.action
    case SelectTopic =>
      StepResult(st.(topic := data.item,
                     outbox := st.outbox + [SpeechPartReply(st.chatId, WordsStore.SpeechParts(sheets.words))]), Done)
    case SelectExerciseType =>
      var st1 := st.(exerciseType := data.item);
      if data.item == ExerciseLabel(Practice) then StepResult(QuestionStep(Practice, sheets, st1, pick), Done)
      else if data.item == ExerciseLabel(Review) then StepResult(QuestionStep(Review, sheets, st1, pick), Done)
      else StepResult(st1, Done)
    case SelectSpeechPart =>
      StepResult(st.(speechPart := data.item, outbox := st.outbox + [ExerciseReply(st.chatId)]), Done)
    case SelectReviewAnswer => ReviewAnswerStep(sheets, st, data.item, pick)
    case SelectPracticeAnswer => PracticeAnswerStep(sheets, st, data.item, pick)
    case Unrecognised(_) => StepResult(st, Done)
  }

  /**
   * `input?.message?.chat?.id || input?.callback_query?.message?.chat?.id`:
   * a message's chat id unless it is 0 (falsy), else the callback's.
   */
  function EventChatId(e: Event): Option<int> {
    if e.message.Some? && e.message.value.chatId != 0 then Some(e.message.value.chatId)
    else if e.callback.Some? then Some(e.callback.value.chatId)
    else None
  }

  /** `handleEvent`: a message with any entity first, then a plain message, then a callback. */
  function EventStep(sheets: Sheets, st: BotState, e: Event, pick: nat): StepResult {
    match EventChatId(e)
    case None =>
      if e.message.Some? then StepResult(st, Failed(NoChatId)) else StepResult(st, Done)
    case Some(id) =>
      var st1 := st.(chatId := id);
      if e.message.Some? && e.message.value.hasEntity then StepResult(CommandStep(sheets, st1), Done)
      else if e.message.Some? then StepResult(MessageStep(st1, e.message.value.sender), Done)
      else if e.callback.Some? then ActionStep(sheets, st1, e.callback.value.data, pick)
      else StepResult(st1, Done)
  }

  // ---------------------------------------------------------------------
  // What the steps promise
  // ---------------------------------------------------------------------

  /**
   * Dispatch priority: a message with any entity wins over a plain message, which wins over
   * a callback; each route changes nothing but what its handler changes.
   */
  lemma EventDispatch(sheets: Sheets, st: BotState, e: Event, pick: nat)
    requires EventChatId(e).Some?
    ensures var st1 := st.(chatId := EventChatId(e).value);
            var r := EventStep(sheets, st, e, pick);
            && (e.message.Some? && e.message.value.hasEntity ==> r == StepResult(CommandStep(sheets, st1), Done))
            && (e.message.Some? && !e.message.value.hasEntity ==>
                  r == StepResult(MessageStep(st1, e.message.value.sender), Done))
            && (e.message.None? ==> r == ActionStep(sheets, st1, e.callback.value.data, pick))
  {
  }

  /**
   * A restart deletes the chat's record (before the topics are read, so
   * even when there are none) and sends one reply: "No topics found." when
   * the topics sheet is empty, the topic buttons otherwise.
   */
  lemma RestartDeletesSession(sheets: Sheets, st: BotState)
    ensures var r := CommandStep(sheets, st);
            && st.chatId !in r.store
            && r.store == st.store - {st.chatId}
            && (|sheets.topics| == 0 <==> r.outbox == st.outbox + [Message(st.chatId, NoTopics)])
            && (|sheets.topics| != 0 ==>
                  r.outbox == st.outbox + [Buttons(st.chatId, TopicPrompt, Topics(sheets.topics), SelectTopic, false)])
  {
    var r := CommandStep(sheets, st);
    if |sheets.topics| != 0 {
      assert r.outbox[|st.outbox|].Buttons?;
      assert (st.outbox + [Message(st.chatId, NoTopics)])[|st.outbox|].Message?;
    }
  }

  /** An answer when the chat has no record fails and writes or sends nothing. */
  lemma AnswerWithoutSessionFails(sheets: Sheets, st: BotState, data: CallbackData, pick: nat)
    requires data.action == SelectReviewAnswer || data.action == SelectPracticeAnswer
    requires st.chatId !in st.store
    ensures var r := ActionStep(sheets, st, data, pick);
            r.outcome == Failed(MissingSession) && r.state.store == st.store && r.state.outbox == st.outbox
  {
  }

  /** An unknown action changes nothing; an unknown exercise type only records the item. */
  lemma UnrecognisedChangesNothing(sheets: Sheets, st: BotState, data: CallbackData, pick: nat)
    ensures data.action.Unrecognised? ==> ActionStep(sheets, st, data, pick) == StepResult(st, Done)
    ensures data.action == SelectExerciseType && data.item != ExerciseLabel(Practice) && data.item != ExerciseLabel(Review)
      ==> ActionStep(sheets, st, data, pick) == StepResult(st.(exerciseType := data.item), Done)
  {
  }

  lemma QuestionStepAppends(kind: ExerciseType, sheets: Sheets, st: BotState, pick: nat)
    ensures var r := QuestionStep(kind, sheets, st, pick);
            |r.outbox| == |st.outbox| + 1 && r.outbox[..|st.outbox|] == st.outbox
            && r.chatId == st.chatId && r.session == st.session && r.topic == st.topic
  {
  }

  /**
   * Practice judging: correct exactly when the item equals the record's
   * `english`. A correct answer acknowledges and continues on the marked
   * instance words; an incorrect one acknowledges and continues on the
   * stored words exactly as they were, so no status changes.
   */
  lemma PracticeAnswerJudged(sheets: Sheets, st: BotState, item: string, pick: nat)
    requires st.chatId in st.store
    ensures var s := st.store[st.chatId];
            var r := PracticeAnswerStep(sheets, st, item, pick);
            && r.state.session == Some(s) && r.state.topic == s.topic
            && (item == s.word.english && st.allWords.Some? ==>
                  && r.outcome == Done
                  && r.state.outbox[|st.outbox|] == Message(st.chatId, CorrectAck)
                  && r.state.allWords == Some(MarkPracticed(st.allWords.value, s.word.german)))
            && (item == s.word.english && st.allWords.None? ==>
                  r.outcome == Failed(WordsNotLoaded) && r.state.store == st.store && r.state.outbox == st.outbox)
            && (item != s.word.english ==>
                  && r.outcome == Done
                  && r.state.outbox[|st.outbox|] == Message(st.chatId, IncorrectAck)
                  && r.state.allWords == Some(s.words))
  {
    var s := st.store[st.chatId];
    var st1 := st.(session := Some(s), topic := s.topic);
    if item == s.word.english {
      if st.allWords.Some? {
        var st2 := UpdateWordStatusStep(st1).value;
        QuestionStepAppends(Practice, sheets, st2.(outbox := st2.outbox + [Message(st.chatId, CorrectAck)]), pick);
      }
    } else {
      QuestionStepAppends(Practice, sheets, st1.(outbox := st1.outbox + [Message(st.chatId, IncorrectAck)]), pick);
    }
  }

  /**
   * Review judging: "later" exactly when the item is "Review later", which
   * continues on the stored words unchanged; any other item counts as "Ok"
   * and continues on the instance words with the word marked.
   */
  lemma ReviewAnswerJudged(sheets: Sheets, st: BotState, item: string, pick: nat)
    requires st.chatId in st.store
    ensures var s := st.store[st.chatId];
            var r := ReviewAnswerStep(sheets, st, item, pick);
            && r.state.session == Some(s) && r.state.topic == s.topic
            && (item == ReviewLabel(ReviewLater) ==>
                  && r.outcome == Done
                  && r.state.outbox[|st.outbox|] == Message(st.chatId, ReviewLaterAck)
                  && r.state.allWords == Some(s.words))
            && (item != ReviewLabel(ReviewLater) && st.allWords.Some? ==>
                  && r.outcome == Done
                  && r.state.outbox[|st.outbox|] == Message(st.chatId, ReviewOkAck)
                  && r.state.allWords == Some(MarkPracticed(st.allWords.value, s.word.german)))
            && (item != ReviewLabel(ReviewLater) && st.allWords.None? ==>
                  r.outcome == Failed(WordsNotLoaded) && r.state.store == st.store && r.state.outbox == st.outbox)
  {
    var s := st.store[st.chatId];
    var st1 := st.(session := Some(s), topic := s.topic);
    if item != ReviewLabel(ReviewLater) {
      if st.allWords.Some? {
        var st2 := UpdateWordStatusStep(st1).value;
        QuestionStepAppends(Review, sheets, st2.(outbox := st2.outbox + [Message(st.chatId, ReviewOkAck)]), pick);
      }
    } else {
      QuestionStepAppends(Review, sheets, st1.(outbox := st1.outbox + [Message(st.chatId, ReviewLaterAck)]), pick);
    }
  }

  /**
   * A practice question followed by its correct answer in the same chat:
   * the word list the quiz continues on is the one asked from with the word
   * marked, no status went back to ToPractice, and strictly fewer words are
   * left to practise.
   */
  lemma CorrectAnswerMakesProgress(sheets: Sheets, st: BotState, pick1: nat, pick2: nat)
    requires Eligible(AllWordsFor(st.store, st.chatId, SheetWords(sheets, st.topic))) != []
    ensures var all := AllWordsFor(st.store, st.chatId, SheetWords(sheets, st.topic));
            var q := QuestionStep(Practice, sheets, st, pick1);
            && st.chatId in q.store
            && var s := q.store[st.chatId];
               var r := PracticeAnswerStep(sheets, q, s.word.english, pick2);
               && r.outcome == Done
               && r.state.allWords == Some(MarkPracticed(all, s.word.german))
               && |Eligible(r.state.allWords.value)| < |Eligible(all)|
               && forall i :: 0 <= i < |all| ==>
                    (r.state.allWords.value[i].status == ToPractice ==> all[i].status == ToPractice)
  {
    var all := AllWordsFor(st.store, st.chatId, SheetWords(sheets, st.topic));
    QuestionStepRecord(Practice, sheets, st, pick1);
    var q := QuestionStep(Practice, sheets, st, pick1);
    var s := q.store[st.chatId];
    PracticeAnswerJudged(sheets, q, s.word.english, pick2);
    MarkPracticedShrinks(all, s.word.german);
    MarkPracticedSpec(all, s.word.german);
  }

  /**
   * `allWords` lives on the instance, not per chat: when chat 2 answers
   * correctly right after chat 1 was asked a question, chat 2's record is
   * rewritten with chat 1's word list.
   */
  lemma InstanceWordsAreSharedAcrossChats()
    ensures var hund := Word("Hund", "dog", ToPractice);
            var katze := Word("Katze", "cat", Practiced);
            var maus := Word("Maus", "mouse", ToPractice);
            var rec1 := Session(1, "Animals", "noun", [hund], hund, ["dog"]);
            var rec2 := Session(2, "Animals", "noun", [katze, maus], maus, ["mouse", "cat"]);
            var st := BotState(2, "Animals", "Practice", "noun", Some([hund]), [hund], None,
                               map[1 := rec1, 2 := rec2], []);
            var r := PracticeAnswerStep(Sheets([], []), st, "mouse", 0);
            r.outcome == Done && r.state.store[2].words == [hund]
  {
    var hund := Word("Hund", "dog", ToPractice);
    var maus := Word("Maus", "mouse", ToPractice);
    assert MarkPracticed([hund], "Maus") == [hund];
    assert Eligible([hund]) == [hund];
  }

  // ---------------------------------------------------------------------
  // The engine object
  // ---------------------------------------------------------------------

  /**
   * `FritzBot`: one long-lived instance, so that `topic`, `speechPart` and
   * `allWords` survive from one event to the next. Fields the source leaves
   * `undefined` until first set start as "" (strings) or None (`allWords`).
   */
  class FritzBot {
    const sheets: Sheets
    var chatId: int
    var topic: string
    var exerciseType: string
    var speechPart: string
    var allWords: Option<seq<Word>>
    var wordsToPractice: seq<Word>
    var session: Option<Session>
    /** The session table: one record per chat id. */
    var store: map<int, Session>
    /** Every message and button prompt sent, in order. */
    var outbox: seq<Outgoing>

    ghost function State(): BotState
      reads this
    {
      BotState(chatId, topic, exerciseType, speechPart, allWords, wordsToPractice, session, store, outbox)
    }

    constructor (sheets: Sheets, store: map<int, Session>)
      ensures this.sheets == sheets
      ensures State() == BotState(0, "", "", "", None, [], None, store, [])
    {
      this.sheets := sheets;
      this.store := store;
      chatId, topic, exerciseType, speechPart := 0, "", "", "";
      allWords, wordsToPractice, session := None, [], None;
      outbox := [];
    }

    /** `getWordsToPractice`: stored words win over the sheet's; the result is their eligible part. */
    method GetWordsToPractice() returns (eligible: seq<Word>)
      modifies this`allWords
      ensures allWords == Some(AllWordsFor(store, chatId, SheetWords(sheets, topic)))
      ensures eligible == Eligible(allWords.value)
    {
      var stored := if chatId in store then Some(store[chatId]) else None;
      var sheetWords := SheetWords(sheets, topic);
      allWords := Some(if stored.Some? then stored.value.words else sheetWords);
      eligible := Eligible(allWords.value);
    }

    /** `getRandomWordToPractice`, with the random index as a parameter. */
    method GetRandomWordToPractice(i: nat) returns (w: Word)
      requires i < |wordsToPractice|
      ensures w == wordsToPractice[i] && w in wordsToPractice
    {
      w := wordsToPractice[i];
    }

    method GetNextReviewQuestion(pick: nat)
      modifies this`allWords, this`wordsToPractice, this`store, this`outbox
      ensures State() == QuestionStep(Review, sheets, old(State()), pick)
    {
      wordsToPractice := GetWordsToPractice();
      if |wordsToPractice| == 0 {
        outbox := outbox + [Message(chatId, CongratsReviewed)];
        return;
      }
      var w := GetRandomWordToPractice(pick % |wordsToPractice|);
      var items := ReviewOptions();
      store := store[chatId := Session(chatId, topic, speechPart, allWords.value, w, items)];
      outbox := outbox + [Buttons(chatId, ReviewQuestion(w.german, w.english), items, SelectReviewAnswer, false)];
    }

    method GetNextPracticeQuestion(pick: nat)
      modifies this`allWords, this`wordsToPractice, this`store, this`outbox
      ensures State() == QuestionStep(Practice, sheets, old(State()), pick)
    {
      wordsToPractice := GetWordsToPractice();
      if |wordsToPractice| == 0 {
        outbox := outbox + [Message(chatId, CongratsPracticed)];
        return;
      }
      var w := GetRandomWordToPractice(pick % |wordsToPractice|);
      var items := PracticeOptions(allWords.value, w);
      store := store[chatId := Session(chatId, topic, speechPart, allWords.value, w, items)];
      outbox := outbox + [Buttons(chatId, PracticeQuestion(w.german), items, SelectPracticeAnswer, true)];
    }

    method HandleMessage(sender: Sender)
      modifies this`outbox
      ensures State() == MessageStep(old(State()), sender)
    {
      outbox := outbox + [Message(chatId, Hello(GreetingName(sender)))];
    }

    method HandleCommand()
      modifies this`store, this`outbox
      ensures State() == CommandStep(sheets, old(State()))
    {
      store := store - {chatId};
      var topics := Topics(sheets.topics);
      if |topics| == 0 {
        outbox := outbox + [Message(chatId, NoTopics)];
        return;
      }
      outbox := outbox + [Buttons(chatId, TopicPrompt, topics, SelectTopic, false)];
    }

    method UpdateWordStatus() returns (ok: bool)
      requires session.Some?
      modifies this`allWords, this`store
      ensures ok == UpdateWordStatusStep(old(State())).Some?
      ensures ok ==> State() == UpdateWordStatusStep(old(State())).value
      ensures !ok ==> State() == old(State())
    {
      if allWords.None? {
        return false;
      }
      allWords := Some(MarkPracticed(allWords.value, session.value.word.german));
      store := store[chatId := Session(chatId, session.value.topic, speechPart, allWords.value,
                                       session.value.word, session.value.answers)];
      return true;
    }

    method GetExerciseType()
      modifies this`outbox
      ensures State() == old(State()).(outbox := old(outbox) + [ExerciseReply(chatId)])
    {
      outbox := outbox + [Buttons(chatId, ExercisePrompt, [ExerciseLabel(Review), ExerciseLabel(Practice)],
                                  SelectExerciseType, false)];
    }

    method GetSpeechPart()
      modifies this`outbox
      ensures State() == old(State()).(outbox := old(outbox) + [SpeechPartReply(chatId, WordsStore.SpeechParts(sheets.words))])
    {
      var speechParts := WordsStore.SpeechParts(sheets.words);
      outbox := outbox + [Buttons(chatId, SpeechPartPrompt, speechParts, SelectSpeechPart, false)];
    }

    /** The `SelectReviewAnswer` case of `handleSelectedAction`. */
    method HandleReviewAnswer(item: string, pick: nat) returns (res: Outcome)
      modifies this
      ensures StepResult(State(), res) == ReviewAnswerStep(sheets, old(State()), item, pick)
    {
      session := if chatId in store then Some(store[chatId]) else None;
      if session.None? {
        return Failed(MissingSession);
      }
      topic := session.value.topic;
      var shouldReviewLater := item == ReviewLabel(ReviewLater);
      if !shouldReviewLater {
        var ok := UpdateWordStatus();
        if !ok {
          return Failed(WordsNotLoaded);
        }
        outbox := outbox + [Message(chatId, ReviewOkAck)];
        GetNextReviewQuestion(pick);
      } else {
        outbox := outbox + [Message(chatId, ReviewLaterAck)];
        GetNextReviewQuestion(pick);
      }
      res := Done;
    }

    /** The `SelectPracticeAnswer` case of `handleSelectedAction`. */
    method HandlePracticeAnswer(item: string, pick: nat) returns (res: Outcome)
      modifies this
      ensures StepResult(State(), res) == PracticeAnswerStep(sheets, old(State()), item, pick)
    {
      session := if chatId in store then Some(store[chatId]) else None;
      if session.None? {
        return Failed(MissingSession);
      }
      topic := session.value.topic;
      var isCorrect := item == session.value.word.english;
      if isCorrect {
        var ok := UpdateWordStatus();
        if !ok {
          return Failed(WordsNotLoaded);
        }
        outbox := outbox + [Message(chatId, CorrectAck)];
        GetNextPracticeQuestion(pick);
      } else {
        outbox := outbox + [Message(chatId, IncorrectAck)];
        GetNextPracticeQuestion(pick);
      }
      res := Done;
    }

    method HandleSelectedAction(data: CallbackData, pick: nat) returns (res: Outcome)
      modifies this
      ensures StepResult(State(), res) == ActionStep(sheets, old(State()), data, pick)
    {
      res := Done;
      match data.action {
        case SelectTopic =>
          topic := data.item;
          GetSpeechPart();
        case SelectExerciseType =>
          exerciseType := data.item;
          if exerciseType == ExerciseLabel(Practice) {
            GetNextPracticeQuestion(pick);
          } else if exerciseType == ExerciseLabel(Review) {
            GetNextReviewQuestion(pick);
          }
        case SelectSpeechPart =>
          speechPart := data.item;
          GetExerciseType();
        case SelectReviewAnswer =>
          res := HandleReviewAnswer(data.item, pick);
        case SelectPracticeAnswer =>
          res := HandlePracticeAnswer(data.item, pick);
        case Unrecognised(_) =>
      }
    }

    method HandleEvent(e: Event, pick: nat) returns (res: Outcome)
      modifies this
      ensures StepResult(State(), res) == EventStep(sheets, old(State()), e, pick)
    {
      var id := EventChatId(e);
      if id.None? {
        return if e.message.Some? then Failed(NoChatId) else Done;
      }
      chatId := id.value;
      res := Done;
      if e.message.Some? && e.message.value.hasEntity {
        HandleCommand();
      } else if e.message.Some? {
        HandleMessage(e.message.value.sender);
      } else if e.callback.Some? {
        res := HandleSelectedAction(e.callback.value.data, pick);
      }
    }
  }
}

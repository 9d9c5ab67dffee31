# Fritz Bot quiz engine, modelled in Dafny

Fritz Bot is a Telegram bot for practising German vocabulary. The words come
from a Google spreadsheet:
- "Sheet1" lists the topics;
- "Sheet2" lists one word per row: topic, German, English and speech part.

A user restarts the bot and gets the topics as buttons. Any message that
carries an entity restarts it: a command, but also a URL, a mention or bold text. The user then picks a
topic, a speech part and an exercise type:
- **Review** shows a word with its translation and asks "Ok" or "Review later".
- **Practice** asks for the English of a German word, with the correct
  translation and up to three others as options.

Each chat's progress lives in a session table keyed by chat id. That state is:
- the full word list with a `to_practice`/`practiced` status per word;
- the word last asked;
- the options sent.

A correct answer or an "Ok" marks the word practised. The quiz ends with a
congratulation once no word is left to practise. An older prototype,
`bot.js`, runs the same loop with German/Russian words, a per-chat session
object and first-word selection.

The project has these modules:

- `Vocabulary` (vocabulary.dfy): word status, topic rows and `getTopics`.
- `Utils` (utils.dfy): the copying Fisher–Yates `shuffleArray` and the
  MarkdownV2 `escapeString`. The shuffle is specified once, by `FisherYates`
  over a sequence of draws, and that specification is shared with the
  prototype's in-place shuffle.
- `WordsStore` (words_store.dfy): the sheet URL and the shaping of parsed
  rows: filter by topic, tag `to_practice`, and the order-preserving
  de-duplication of speech parts.
- `GoogleSheet` (google_sheet.dfy): the German/Russian row shaping, which is
  also the prototype's `getWordsByTopic`.
- `SessionRecord` (session_record.dfy): the shape of a session record.
- `FritzBotModel` (fritz_bot.dfy): the engine, in two halves.
  - Pure step functions over a state snapshot `BotState`, with lemmas about
    them.
  - The class `FritzBot`, whose fields are the engine's instance fields plus
    two more: the session table `store` (a `map<int, Session>`) and the
    append-only `outbox` of messages and button prompts. Every method is
    proved to move the object's state exactly as the matching step function
    says.
- `Prototype` (prototype.dfy): the `bot.js` loop. `QuizSession` holds the
  session's `words` as an array. A word object is named by its slot in the
  list that holds it (`WordRef`). So `currentWord.status = 'practiced'`
  writes that slot. A list replaced by a later topic selection does not see
  the write.

Randomness is a parameter:
- The engine's random word is `eligible[pick % |eligible|]`.
- `FisherYates`, `ShuffleCopy` and `ShuffleInPlace` require picks with
  `0 <= picks[i] <= i`, which is what `Math.floor(Math.random() * (i + 1))`
  always yields.
- `getShuffledOptions` takes raw draws and clamps them with `Picks`, which
  leaves every valid sequence unchanged.

## Model

| member | source | states |
|---|---|---|
| `Vocabulary.Topics` | src/lib/google-sheet.ts:50-53 | one topic per row, same length, `topics[i] == rows[i].topic`, in order and with duplicates kept; the same expression is `getTopics` at src/stores/words-store.ts:20-23 and bot.js:31-35 |
| `Vocabulary.TopicsConcat` | src/stores/words-store.ts:20-23 | the topics of two blocks of rows are the two topic lists one after the other (order is the sheet's) |
| `Utils.Picks` | src/lib/utils.ts:4 | every draw sequence becomes a valid one (`picks[i] <= i`, one per element), and a valid one is kept as it is |
| `Utils.SwapPermutes` | src/lib/utils.ts:5 | one swap of two in-range positions keeps the multiset |
| `Utils.ShuffleDownPermutes` | src/lib/utils.ts:3-6 | the swaps of steps i down to 1 keep the length and the multiset, whatever the draws (the loop invariant) |
| `Utils.ShuffleDown` | src/lib/utils.ts:3-6 | the loop `for (i = n - 1; i > 0; i--)` from step i down: swap position i with the drawn `picks[i]`, then go on with step i - 1; its properties are in `Utils.ShuffleDownPermutes` |
| `Utils.FisherYates` | src/lib/utils.ts:1-8 | `shuffleArray`: the loop run from the last index, under the given draws; the proved properties are in `Utils.FisherYatesPermutes` and `Utils.ShuffleCopy` |
| `Utils.FisherYatesPermutes` | src/lib/utils.ts:1-8 | the shuffle is a permutation of its input (same length, same multiset); inputs of length 0 or 1 come back unchanged |
| `Utils.ShuffleCopy` | src/lib/utils.ts:1-8 | returns a new array equal to the Fisher–Yates shuffle of the input under the draws, with the input's multiset; the input is not modified |
| `Utils.EscapeAll` | src/lib/utils.ts:18-20 | one `replaceAll(c, '\\' + c)` pass: a backslash before every occurrence of `c`; its property is in `Utils.EscapeAllConcat` |
| `Utils.Escape` | src/lib/utils.ts:16-21 | `escapeString`: the passes for `(`, `)` and `.` chained in that order; its properties are in `Utils.EscapeIsPerCharacter` through `Utils.EscapePlain` |
| `Utils.EscapeAllConcat` | src/lib/utils.ts:18-20 | one `replaceAll` pass distributes over concatenation |
| `Utils.EscapeIsPerCharacter` | src/lib/utils.ts:16-21 | the three passes equal escaping each character on its own: `(`, `)` and `.` get one backslash each, every other character is kept |
| `Utils.EscapeLength` | src/lib/utils.ts:16-21 | output length is input length plus the number of `(`, `)` and `.` |
| `Utils.EscapeConcat` | src/lib/utils.ts:16-21 | `escapeString(a + b) == escapeString(a) + escapeString(b)` |
| `Utils.EscapePlain` | src/lib/utils.ts:16-21 | text with none of the three characters is returned unchanged |
| `WordsStore.GoogleSheetUrl` | src/stores/words-store.ts:6-8 | the URL starts with the Google Docs spreadsheet prefix, ends with the sheet name and has the length of its parts |
| `WordsStore.GoogleSheetUrlInjective` | src/stores/words-store.ts:6-8 | two equal URLs name the same spreadsheet id and the same sheet |
| `WordsStore.GetWords` | src/stores/words-store.ts:30-40 | every word is a row of that topic with all columns copied and status ToPractice; every row of that topic is in the result; never more words than rows |
| `WordsStore.GetWordsConcat` | src/stores/words-store.ts:33-34 | filtering keeps sheet order: blocks of rows give their words block by block |
| `WordsStore.Distinct` | src/stores/words-store.ts:27 | the `Set` round trip lists no value twice and exactly the values of its input |
| `WordsStore.DistinctFirstOccurrenceOrder` | src/stores/words-store.ts:27 | the distinct values come in the order of their first occurrence |
| `WordsStore.SpeechPartColumn` | src/stores/words-store.ts:27 | `words.map(word => word.speech_part)`: same length, item i is row i's speech part |
| `WordsStore.SpeechParts` | src/stores/words-store.ts:25-28 | `getSpeechParts`: every row's speech part, passed through the `Set` round trip (`Distinct`); its properties are in `WordsStore.SpeechPartsSpec` |
| `WordsStore.SpeechPartsSpec` | src/stores/words-store.ts:25-28 | `getSpeechParts` has no duplicates, includes every row's speech part, includes nothing else, in order of first occurrence |
| `GoogleSheet.GetWords` | src/lib/google-sheet.ts:55-65 | every word is German and Russian copied from a row of that topic, with status ToPractice; every row of that topic is in the result; the same expression is `getWordsByTopic` at bot.js:38-43 |
| `GoogleSheet.GetWordsConcat` | src/lib/google-sheet.ts:58-60 | order of the rows is preserved |
| `FritzBotModel.Eligible` | src/lib/fritz-bot.ts:28-29 | a word is eligible exactly when it is in the list with status ToPractice; never longer than the list |
| `FritzBotModel.EligibleConcat` | src/lib/fritz-bot.ts:28-29 | the filter keeps the order of the list (the eligible list is the ToPractice subsequence) |
| `FritzBotModel.SheetWords` | src/lib/fritz-bot.ts:22 | `getWords(this.topic, this.speechPart)` as the engine keeps it: the topic's sheet words with German, English and status; the speech part is not used |
| `FritzBotModel.SheetWordsAllEligible` | src/lib/fritz-bot.ts:19-30 | words fresh from the sheet are all eligible |
| `FritzBotModel.AllWordsFor` | src/lib/fritz-bot.ts:25 | `session?.words ? session.words : googleSheetWords`: the chat's stored words when it has a record (an empty list is truthy too), else the sheet's; used by `FritzBot.GetWordsToPractice` |
| `FritzBotModel.Distractors` | src/lib/fritz-bot.ts:91 | a word is a distractor exactly when it is in the list with a different German |
| `FritzBotModel.DistractorsConcat` | src/lib/fritz-bot.ts:91 | the filter keeps list order: the distractors of two blocks are those of the first block followed by those of the second; with `Distractors` this makes it the subsequence of words with a different German |
| `FritzBotModel.Englishes` | src/lib/fritz-bot.ts:94 | `words.map(word => word.english)`: same length, item i is the English of word i |
| `FritzBotModel.PracticeOptions` | src/lib/fritz-bot.ts:88-94 | 1 to 4 options; the first is the word's English; exactly 1 + min(3, distractors) options; option k is the English of distractor k - 1, in `allWords` order (the first three of `.slice(0, 3)`); so each of them is the English of a word of the list with a different German |
| `FritzBotModel.ReviewOptions` | src/lib/fritz-bot.ts:50 | the review items: "Review later" then "Ok", in that order |
| `FritzBotModel.MarkPracticed` | src/lib/fritz-bot.ts:164-170 | same length; exactly the words with that German become Practiced, every other word is unchanged |
| `FritzBotModel.MarkPracticedSpec` | src/lib/fritz-bot.ts:161-170 | marking is idempotent, changes only statuses, only on that German, and never sets a status back to ToPractice |
| `FritzBotModel.MarkPracticedShrinks` | src/lib/fritz-bot.ts:164-170 | after marking, the eligible words are among those before and none has that German; strictly fewer when an eligible word had it |
| `FritzBotModel.QuestionStep` | src/lib/fritz-bot.ts:36-119 | `getNextReviewQuestion` / `getNextPracticeQuestion`: read the words; either congratulate, or write the record and send the question about the drawn eligible word; proved in `QuestionStepCompletion`, `QuestionStepRecord` and `SpeechPartDoesNotFilter` |
| `FritzBotModel.QuestionStepCompletion` | src/lib/fritz-bot.ts:38-85 | for both exercise types the congratulation is the one message sent exactly when nothing is eligible, and then the session table is unchanged |
| `FritzBotModel.QuestionStepRecord` | src/lib/fritz-bot.ts:47-119 | asking replaces the chat's record with id, topic, speech part, `words == allWords`, an eligible (so ToPractice) word and the items sent; practice items are 1–4 with the correct one first; review items are exactly [Review later, Ok], unshuffled; other chats' records are untouched |
| `FritzBotModel.SpeechPartDoesNotFilter` | src/lib/fritz-bot.ts:22 | the words read and the question sent do not depend on the selected speech part |
| `FritzBotModel.StartReply` | src/lib/fritz-bot.ts:144-158 | "No topics found." when there are no topics, else the topic prompt with the topics as unshuffled buttons |
| `FritzBotModel.CommandStep` | src/lib/fritz-bot.ts:135-159 | `handleCommand`: delete the chat's record, then reply with the topics or "No topics found."; proved in `RestartDeletesSession` |
| `FritzBotModel.GreetingName` | src/lib/fritz-bot.ts:123-128 | `first_name`, or `username` when it is falsy: the first name unless it is empty, then the username |
| `FritzBotModel.MessageStep` | src/lib/fritz-bot.ts:121-133 | `handleMessage`: one greeting with `GreetingName`, and no other change |
| `FritzBotModel.UpdateWordStatusStep` | src/lib/fritz-bot.ts:161-184 | `updateWordStatus`: mark the instance's `allWords` by the record's word and write the record back with the current speech part; none when `allWords` was never loaded; the marking is proved in `MarkPracticedSpec` and `MarkPracticedShrinks` |
| `FritzBotModel.ExerciseReply` | src/lib/fritz-bot.ts:187-192 | the exercise prompt with the buttons Review and Practice |
| `FritzBotModel.SpeechPartReply` | src/lib/fritz-bot.ts:202-208 | the speech-part prompt with the given parts as unshuffled buttons |
| `FritzBotModel.ReviewAnswerStep` | src/lib/fritz-bot.ts:248-283 | the `SelectReviewAnswer` case: read the record (a missing one fails), acknowledge, mark on "Ok", then the next review question; proved in `ReviewAnswerJudged` |
| `FritzBotModel.PracticeAnswerStep` | src/lib/fritz-bot.ts:286-323 | the `SelectPracticeAnswer` case: read the record (a missing one fails), judge against its `english`, acknowledge, mark when correct, then the next practice question; proved in `PracticeAnswerJudged` and `CorrectAnswerMakesProgress` |
| `FritzBotModel.ActionStep` | src/lib/fritz-bot.ts:214-325 | `handleSelectedAction`: the switch over the five actions, with an unknown one doing nothing; proved in `UnrecognisedChangesNothing` and `AnswerWithoutSessionFails` |
| `FritzBotModel.EventChatId` | src/lib/fritz-bot.ts:332 | the chat id of `handleEvent`: the message's chat id unless it is 0 (falsy), else the callback's, else none |
| `FritzBotModel.EventStep` | src/lib/fritz-bot.ts:327-342 | `handleEvent`: take the chat id, then route a message with any entity to the restart, another message to the greeting and a callback to the action switch; proved in `EventDispatch` |
| `FritzBotModel.RestartDeletesSession` | src/lib/fritz-bot.ts:135-159 | a restart deletes the chat's record even when there are no topics; "No topics found." is sent exactly when the topics sheet is empty, else the topics as buttons |
| `FritzBotModel.EventDispatch` | src/lib/fritz-bot.ts:327-342 | a message with any entity (`entities[0]` of any type, not only a command) wins over a plain message, which wins over a callback; each route does only what its handler does |
| `FritzBotModel.AnswerWithoutSessionFails` | src/lib/fritz-bot.ts:248-290 | an answer in a chat without a record fails and writes and sends nothing |
| `FritzBotModel.UnrecognisedChangesNothing` | src/lib/fritz-bot.ts:220-238 | an unknown action changes nothing; an unknown exercise type only records the item |
| `FritzBotModel.PracticeAnswerJudged` | src/lib/fritz-bot.ts:286-322 | correct exactly when the item equals the record's English; correct: "Correct", words marked; incorrect: the consolation and the stored words go on unchanged; the words not loaded make a correct answer fail |
| `FritzBotModel.ReviewAnswerJudged` | src/lib/fritz-bot.ts:248-283 | "later" exactly when the item is "Review later", and then the stored words go on unchanged; any other item is "Ok" and marks the word; "Ok" with the words not loaded fails and writes and sends nothing |
| `FritzBotModel.CorrectAnswerMakesProgress` | src/lib/fritz-bot.ts:286-307 | a practice question and then its correct answer: the quiz goes on with the asked-from words, with the word marked, strictly fewer eligible words, and no status back to ToPractice |
| `FritzBotModel.InstanceWordsAreSharedAcrossChats` | src/lib/fritz-bot.ts:161-183 | `updateWordStatus` marks the instance's `allWords`, so a correct answer in chat 2 right after a question in chat 1 writes chat 1's word list into chat 2's record |
| `FritzBotModel.FritzBot.constructor` | src/lib/fritz-bot.ts:9-17 | a new engine: unset fields, no loaded words, given session table, nothing sent |
| `FritzBotModel.FritzBot.GetWordsToPractice` | src/lib/fritz-bot.ts:19-30 | `allWords` is the stored record's words when the chat has a record (even an empty list), else the sheet's words of the topic; the result is its eligible part |
| `FritzBotModel.FritzBot.GetRandomWordToPractice` | src/lib/fritz-bot.ts:32-34 | the word at the drawn index of `wordsToPractice` |
| `FritzBotModel.FritzBot.GetNextReviewQuestion` | src/lib/fritz-bot.ts:36-74 | moves the state exactly as `QuestionStep(Review, …)` |
| `FritzBotModel.FritzBot.GetNextPracticeQuestion` | src/lib/fritz-bot.ts:76-119 | moves the state exactly as `QuestionStep(Practice, …)` |
| `FritzBotModel.FritzBot.HandleMessage` | src/lib/fritz-bot.ts:121-133 | sends one greeting with the first name, or the username when the first name is empty, and changes nothing else |
| `FritzBotModel.FritzBot.HandleCommand` | src/lib/fritz-bot.ts:135-159 | moves the state exactly as `CommandStep` |
| `FritzBotModel.FritzBot.UpdateWordStatus` | src/lib/fritz-bot.ts:161-184 | succeeds exactly when `allWords` was loaded; marks it and writes the record back; fails changing nothing |
| `FritzBotModel.FritzBot.GetExerciseType` | src/lib/fritz-bot.ts:186-196 | sends the two exercise types as buttons and changes nothing else |
| `FritzBotModel.FritzBot.GetSpeechPart` | src/lib/fritz-bot.ts:198-212 | sends the distinct speech parts as unshuffled buttons and changes nothing else |
| `FritzBotModel.FritzBot.HandleReviewAnswer` | src/lib/fritz-bot.ts:248-283 | moves the state and ends exactly as `ReviewAnswerStep` |
| `FritzBotModel.FritzBot.HandlePracticeAnswer` | src/lib/fritz-bot.ts:286-323 | moves the state and ends exactly as `PracticeAnswerStep` |
| `FritzBotModel.FritzBot.HandleSelectedAction` | src/lib/fritz-bot.ts:214-325 | moves the state and ends exactly as `ActionStep` |
| `FritzBotModel.FritzBot.HandleEvent` | src/lib/fritz-bot.ts:327-342 | moves the state and ends exactly as `EventStep` |
| `Prototype.FirstToPractice` | bot.js:115 | none exactly when no word is to practise; otherwise the index of a word to practise with none before it |
| `Prototype.RemainingZero` | bot.js:104-109 | no word is left to practise exactly when the count of words to practise is zero |
| `Prototype.PracticeOne` | bot.js:91-93 | practising one word that was to practise leaves exactly one fewer |
| `Prototype.AfterCorrect` | bot.js:91-93 | the list after a correct answer to the question about the first word to practise: that slot set to practised; its count is in `Prototype.PracticeOne` and `Prototype.CorrectAnswersFinish` |
| `Prototype.CorrectAnswersFinish` | bot.js:86-109 | with first-pick selection, n correct answers leave n fewer words to practise |
| `Prototype.SessionFinishes` | bot.js:104-118 | as many correct answers as words to practise finish the topic |
| `Prototype.Russians` | bot.js:134 | `words.map(word => word.russian)`: same length, item i is the Russian of word i |
| `Prototype.Others` | bot.js:133-135 | a string is an other translation exactly when it is some word's Russian and differs from the correct answer |
| `Prototype.ShuffledOptions` | bot.js:132-140 | `getShuffledOptions`: shuffle the other translations, keep three, put the correct answer in front, shuffle again, each shuffle under its own draws; proved in `Prototype.ShuffledOptionsSpec` |
| `Prototype.ShuffledOptionsSpec` | bot.js:132-140 | whatever the draws: 1 + min(3, other translations) options; the correct answer exactly once; every other option is another word's translation; leaving the correct answer out, the options are a sub-multiset of the other translations, so none repeats more often than the words have it |
| `Utils.PrefixSubMultiset` | bot.js:137 | `.slice(0, 3)` keeps a sub-multiset: a prefix holds no element more often than the whole |
| `Prototype.ShuffleInPlace` | bot.js:142-148 | shuffles the argument in place into its Fisher–Yates shuffle (same multiset) and returns the same array |
| `Prototype.GetShuffledOptions` | bot.js:132-140 | equals `ShuffledOptions`, so has the option count and holds the correct answer exactly once |
| `Prototype.AskReply` | bot.js:113-130 | the reply `askQuestion` sends: the question about the first word to practise, with the shuffled options, or the congratulation naming the topic |
| `Prototype.QuizSession.AskQuestion` | bot.js:113-130 | asks about the first word to practise and makes it `currentWord`; with none, only the congratulation is sent and `currentWord` stays as it was |
| `Prototype.QuizSession.SelectTopic` | bot.js:73-85 | the session's words become a new list equal to `getWordsByTopic(topic)`, the topic is stored, then a question is asked |
| `Prototype.QuizSession.AnswerQuestion` | bot.js:86-110 | with no current word it fails, changing nothing; an answer equal to `currentWord.russian` sets that word's status to practised and any other changes no status; "Bravo!" or the consolation, then the congratulation exactly when none is left, else the next question; after a question a correct answer is one first-pick step |

## Left out

- Fetching and parsing the sheets (`fetchSheetData`: HTTP request, SSM secret, CSV parse): the parsed rows are inputs.
- The DynamoDB session store and its client (src/stores/session-store.ts, src/lib/db.ts): the table is a map from chat id to record. When a required attribute is missing, the store rejects the write; that validation is not modelled.
- The Telegram HTTP client, the Momento cache, SSM and logging: sent messages are appended to `outbox` as tokens, not as formatted text.
- The button shuffle asked for by `shouldShuffleArray` happens in the transport, which is not part of this model. The model records only the flag (`Buttons.shuffle`).
- The Lambda entry points, src/lib/fritz.ts, the CDK infrastructure, and `bot.start`/`bot.launch` with the Telegraf setup of bot.js. `bot.start` also counts the words per topic; it is not modelled.
- Concurrent invocations for one chat: events are handled one at a time.
- `Math.random` and floating point: draws are parameters. `Utils.ShuffleCopy` and `Prototype.ShuffleInPlace` require valid picks (`0 <= picks[i] <= i`), which every real draw sequence meets. Only `Prototype.ShuffledOptions` and `Prototype.GetShuffledOptions` take raw draws and clamp them with `Utils.Picks`.
- The missing constants (review answers, exercise types, most actions) are distinct values with labels chosen here. The bot.js action names become the cases of `Prototype` methods: `select_topic` is `SelectTopic` and `answer_question` is `AnswerQuestion`. An unknown bot.js action does nothing and has no method.
- Undefined instance fields are modelled as follows:
  - `topic`, `speechPart` and `exerciseType` that were never set are the empty string;
  - `allWords` before the first load is `None`, and marking then fails as the source's `undefined.map` throws;
  - a missing record on an answer fails (`MissingSession`);
  - a message whose chat id is undefined or 0, with no callback to fall back on, fails (`NoChatId`).
- `FritzBotModel.FromSheet`: the engine's `Word` keeps German, English and status; the sheet's topic and speech part columns are dropped from stored words.
- `FritzBotModel.FritzBot.HandleEvent`: when the chat id is undefined, the source still stores `undefined` as `chatId`. The model keeps the old `chatId` instead. With a message, it then fails (`NoChatId`). With neither a message nor a callback, it ends `Done`; the source does nothing more in that case either.
- Malformed callback data (`JSON.parse` throwing) is not modelled: the callback's data is the parsed action and item.
- `Prototype.QuizSession`: the session middleware is taken to keep the same objects between updates. That is why the write to `currentWord` shows in `words`. A session that went through JSON storage would lose that sharing, and this model does not capture it.

/**
 * The shape of the per-chat record the engine keeps in its session table
 * (the attribute schema of src/stores/session-store.ts). The table itself is
 * modelled as a `map<int, Session>` keyed by chat id.
 */
module SessionRecord {
  import opened Vocabulary

  /** A word as the engine keeps it: `german`, `english`, `status`. */
  datatype Word = Word(german: string, english: string, status: Status)

  /**
   * One chat's record: the chat id (primary key), the chosen topic and
   * speech part, the full word list with statuses, the word last asked and
   * the answer options last sent.
   */
  datatype Session = Session(
    id: int,
    topic: string,
    speechPart: string,
    words: seq<Word>,
    word: Word,
    answers: seq<string>)
}

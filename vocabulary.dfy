/**
 * Shapes shared by every part of the bot that reads the vocabulary sheet:
 * the practice status of a word and the rows of the topics sheet ("Sheet1").
 */
module Vocabulary {

  /** `to_practice` / `practiced`: the only two statuses a word can carry. */
  datatype Status = ToPractice | Practiced

  /** A row of the topics sheet: one column, `topic`. */
  datatype TopicRow = TopicRow(topic: string)

  /**
   * `entries.map(entry => entry.topic)`: one topic per row, in sheet order,
   * duplicates kept. The same expression is `getTopics` in words-store.ts,
   * google-sheet.ts and bot.js.
   */
  function Topics(rows: seq<TopicRow>): (topics: seq<string>)
    ensures |topics| == |rows|
    ensures forall i :: 0 <= i < |rows| ==> topics[i] == rows[i].topic
  {
    if rows == [] then [] else [rows[0].topic] + Topics(rows[1..])
  }

  /** Reading two sheets one after the other gives their topic lists one after the other. */
  lemma {:induction false} TopicsConcat(a: seq<TopicRow>, b: seq<TopicRow>)
    ensures Topics(a + b) == Topics(a) + Topics(b)
  {
    if a != [] {
      assert (a + b)[1..] == a[1..] + b;
      TopicsConcat(a[1..], b);
    }
  }
}

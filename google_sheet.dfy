/**
 * src/lib/google-sheet.ts after the fetch: the shaping of the parsed rows of
 * the words sheet in its German/Russian layout. The same expression is
 * `getWordsByTopic` in bot.js, which uses this definition.
 */
module GoogleSheet {
  import opened Vocabulary

  /** A row of the words sheet in this layout: `topic`, `german`, `russian`. */
  datatype RuRow = RuRow(topic: string, german: string, russian: string)

  /** A word to practise: the two translations and a status. */
  datatype RuWord = RuWord(german: string, russian: string, status: Status)

  function Tag(row: RuRow): RuWord {
    RuWord(row.german, row.russian, ToPractice)
  }

  /**
   * `getWords(topic)`: the rows of that topic, in sheet order, reduced to
   * `german` and `russian` and tagged ToPractice.
   */
  function GetWords(rows: seq<RuRow>, topic: string): (words: seq<RuWord>)
    ensures |words| <= |rows|
    ensures forall w :: w in words ==> w.status == ToPractice
    ensures forall w :: w in words ==> exists i :: 0 <= i < |rows| && rows[i].topic == topic && w == Tag(rows[i])
    ensures forall i :: 0 <= i < |rows| && rows[i].topic == topic ==> Tag(rows[i]) in words
  {
    if rows == [] then []
    else (if rows[0].topic == topic then [Tag(rows[0])] else []) + GetWords(rows[1..], topic)
  }

  /** Filtering keeps sheet order: the words of two blocks of rows come block by block. */
  lemma {:induction false} GetWordsConcat(a: seq<RuRow>, b: seq<RuRow>, topic: string)
    ensures GetWords(a + b, topic) == GetWords(a, topic) + GetWords(b, topic)
  {
    if a != [] {
      assert (a + b)[1..] == a[1..] + b;
      GetWordsConcat(a[1..], b, topic);
    } else {
      assert a + b == b;
    }
  }
}
